/**
 Staging a bounded copy of a topic in memory and producing it to another one: the byte budget,
 the deep copies, and what the target holds when producing stops.
 */
module MirrorStaging {
  import opened Common

  newtype Int = x: int | -0x8000_0000_0000_0000 <= x <= 0x7FFF_FFFF_FFFF_FFFF

  const MESSAGE_OVERHEAD: nat := 256
  const HEADER_OVERHEAD: nat := 128

  /** A message as a source emits it: byte slices, any of which may be nil. */
  datatype Message = Message(coordinate: string, key: array?<bv8>, body: array?<bv8>, headers: Option<map<string, array?<bv8>>>)

  datatype MessageValue = MessageValue(coordinate: string, key: Option<seq<bv8>>, body: Option<seq<bv8>>, headers: Option<map<string, Option<seq<bv8>>>>)

  function HeadersOf(m: Message): map<string, array?<bv8>> {
    if m.headers.Some? then m.headers.value else map[]
  }

  function Memory(a: array?<bv8>): set<array<bv8>> {
    if a == null then {} else {a}
  }

  function HeaderArrays(headers: map<string, array?<bv8>>): set<array<bv8>> {
    set k | k in headers && headers[k] != null :: headers[k]
  }

  /** The memory a message's contents live in. */
  function Arrays(m: Message): set<array<bv8>> {
    Memory(m.key) + Memory(m.body) + HeaderArrays(HeadersOf(m))
  }

  ghost function BytesOf(a: array?<bv8>): Option<seq<bv8>>
    reads a
  {
    if a == null then None else Some(a[..])
  }

  ghost function HeaderValues(headers: map<string, array?<bv8>>): map<string, Option<seq<bv8>>>
    reads HeaderArrays(headers)
  {
    map k | k in headers :: BytesOf(headers[k])
  }

  /** The contents of a message, at the moment one looks. */
  ghost function ValueOf(m: Message): MessageValue
    reads Arrays(m)
  {
    MessageValue(m.coordinate, BytesOf(m.key), BytesOf(m.body),
                 if m.headers.Some? then Some(HeaderValues(m.headers.value)) else None)
  }

  function Len(a: array?<bv8>): nat {
    if a == null then 0 else a.Length
  }

  // ---- The cost of a message --------------------------------------------

  function EntryCost(name: string, value: array?<bv8>): nat {
    HEADER_OVERHEAD + |name| + Len(value)
  }

  /** The summed cost of the headers; no order of them is singled out. */
  ghost function HeadersCost(headers: map<string, array?<bv8>>): nat
    decreases |headers|
  {
    if headers == map[] then 0 else
      var k :| k in headers;
      EntryCost(k, headers[k]) + HeadersCost(headers - {k})
  }

  ghost function Cost(m: Message): nat {
    MESSAGE_OVERHEAD + Len(m.key) + Len(m.body) + HeadersCost(HeadersOf(m))
  }

  /** Any header may be the one taken out first. */
  lemma {:induction false} AnyHeaderFirst(headers: map<string, array?<bv8>>, k: string)
    requires k in headers
    ensures HeadersCost(headers) == EntryCost(k, headers[k]) + HeadersCost(headers - {k})
    decreases |headers|
  {
    var first :| first in headers && HeadersCost(headers) == EntryCost(first, headers[first]) + HeadersCost(headers - {first});
    if first != k {
      AnyHeaderFirst(headers - {first}, k);
      AnyHeaderFirst(headers - {k}, first);
      assert headers - {first} - {k} == headers - {k} - {first};
    }
  }

  /** What Go's integers guarantee of the lengths involved. */
  ghost predicate Addressable(m: Message) {
    && Len(m.key) <= MAX_INT64 && Len(m.body) <= MAX_INT64
    && forall k :: k in HeadersOf(m) ==> |k| <= MAX_INT64 && Len(HeadersOf(m)[k]) <= MAX_INT64
  }

  /** Adding one size: refused when it would exceed what remains, and computed without overflow. */
  method AddSize(total: Int, size: Int, remaining: Int) returns (ok: bool, sum: Int)
    requires 0 <= size && 0 <= total && (total == 0 || total <= remaining)
    ensures ok <==> total as int + size as int <= remaining as int
    ensures sum as int == if ok then total as int + size as int else total as int
  {
    if size < 0 || size > remaining - total {
      return false, total;
    }
    return true, total + size;
  }

  /** The budget check: it accepts exactly the messages whose cost remains, whatever order the headers come in. */
  method BoundedMessageBytes(m: Message, remaining: Int) returns (bytes: Int, ok: bool)
    requires Addressable(m)
    ensures ok <==> Cost(m) <= remaining as int
    ensures bytes as int == if ok then Cost(m) else 0
  {
    var total: Int := 0;
    ok, total := AddSize(total, MESSAGE_OVERHEAD as Int, remaining);
    if !ok { return 0, false; }
    ok, total := AddSize(total, Len(m.key) as Int, remaining);
    if !ok { return 0, false; }
    ok, total := AddSize(total, Len(m.body) as Int, remaining);
    if !ok { return 0, false; }
    var rest := HeadersOf(m);
    while rest.Keys != {}
      invariant 0 <= total <= remaining
      invariant forall k :: k in rest ==> k in HeadersOf(m) && rest[k] == HeadersOf(m)[k]
      invariant total as int + HeadersCost(rest) == Cost(m)
      decreases |rest|
    {
      var k :| k in rest.Keys;
      AnyHeaderFirst(rest, k);
      ok, total := AddSize(total, HEADER_OVERHEAD as Int, remaining);
      if !ok { return 0, false; }
      ok, total := AddSize(total, |k| as Int, remaining);
      if !ok { return 0, false; }
      ok, total := AddSize(total, Len(rest[k]) as Int, remaining);
      if !ok { return 0, false; }
      rest := rest - {k};
    }
    return total, true;
  }

  lemma {:induction false} SameHeadersCost(a: map<string, array?<bv8>>, b: map<string, array?<bv8>>)
    requires a.Keys == b.Keys && forall k :: k in a ==> Len(a[k]) == Len(b[k])
    ensures HeadersCost(a) == HeadersCost(b)
    decreases |a|
  {
    if a.Keys != {} {
      var k :| k in a.Keys;
      AnyHeaderFirst(a, k);
      AnyHeaderFirst(b, k);
      SameHeadersCost(a - {k}, b - {k});
    } else {
      assert a == map[] && b == map[];
    }
  }

  // ---- Deep copies -------------------------------------------------------

  method CloneBytes(a: array?<bv8>) returns (c: array?<bv8>)
    ensures BytesOf(c) == BytesOf(a) && Len(c) == Len(a)
    ensures c != null ==> fresh(c)
  {
    if a == null {
      return null;
    }
    var copy := new bv8[a.Length];
    for i := 0 to a.Length
      invariant copy[..i] == a[..i]
    {
      copy[i] := a[i];
    }
    assert copy[..] == copy[..a.Length] && a[..] == a[..a.Length];
    return copy;
  }

  method CloneHeaders(headers: map<string, array?<bv8>>) returns (copied: map<string, array?<bv8>>)
    ensures HeaderValues(copied) == HeaderValues(headers) && HeadersCost(copied) == HeadersCost(headers)
    ensures forall k :: k in copied && copied[k] != null ==> fresh(copied[k])
  {
    copied := map[];
    var rest := headers.Keys;
    while rest != {}
      invariant rest <= headers.Keys
      invariant copied.Keys == headers.Keys - rest
      invariant forall k :: k in copied ==> BytesOf(copied[k]) == BytesOf(headers[k]) && Len(copied[k]) == Len(headers[k])
      invariant forall k :: k in copied && copied[k] != null ==> fresh(copied[k])
      decreases |rest|
    {
      var k :| k in rest;
      var value := CloneBytes(headers[k]);
      copied, rest := copied[k := value], rest - {k};
    }
    SameHeadersCost(copied, headers);
  }

  /** The copy has the same contents and shares no memory with the original. */
  method CloneMessage(m: Message) returns (c: Message)
    ensures ValueOf(c) == ValueOf(m) && Cost(c) == Cost(m) && Len(c.body) == Len(m.body)
    ensures fresh(Arrays(c))
  {
    var key := CloneBytes(m.key);
    var body := CloneBytes(m.body);
    c := Message(m.coordinate, key, body, None);
    if m.headers.Some? {
      var headers := CloneHeaders(m.headers.value);
      c := c.(headers := Some(headers));
    }
  }

  // ---- The buffer --------------------------------------------------------

  ghost function SumCosts(messages: seq<Message>): nat {
    if messages == [] then 0 else SumCosts(messages[..|messages| - 1]) + Cost(Last(messages))
  }

  ghost function SumBodies(messages: seq<Message>): nat {
    if messages == [] then 0 else SumBodies(messages[..|messages| - 1]) + Len(Last(messages).body)
  }

  lemma SumsOneMore(messages: seq<Message>, m: Message)
    ensures SumCosts(messages + [m]) == SumCosts(messages) + Cost(m)
    ensures SumBodies(messages + [m]) == SumBodies(messages) + Len(m.body)
  {
    assert (messages + [m])[..|messages|] == messages;
  }

  lemma {:induction false} SumsPrefix(messages: seq<Message>, i: nat)
    requires i < |messages|
    ensures SumCosts(messages[..i + 1]) == SumCosts(messages[..i]) + Cost(messages[i])
    ensures SumCosts(messages[..i + 1]) <= SumCosts(messages)
  {
    assert messages[..i + 1][..i] == messages[..i];
    if i + 1 == |messages| {
      assert messages[..i + 1] == messages;
    } else {
      SumsPrefix(messages[..|messages| - 1], i);
      assert messages[..|messages| - 1][..i + 1] == messages[..i + 1];
    }
  }

  lemma {:induction false} BodiesWithinCosts(messages: seq<Message>)
    ensures SumBodies(messages) <= SumCosts(messages)
  {
    if messages != [] {
      BodiesWithinCosts(messages[..|messages| - 1]);
    }
  }

  class ReadBuffer {
    const maxMessages: nat
    const maxBytes: Int
    var messages: seq<Message>
    var buffered: Int
    var totalSize: Int
    var totalCount: Int
    ghost var memory: set<array<bv8>>

    /** The staged messages live in memory of the buffer's own and stay within both limits. */
    ghost predicate Valid()
      reads this
    {
      && |messages| <= maxMessages <= MAX_INT64 && 0 < maxBytes
      && buffered as int == SumCosts(messages) <= maxBytes as int
      && totalSize as int == SumBodies(messages)
      && totalCount as int == |messages|
      && (forall m :: m in messages ==> Arrays(m) <= memory)
    }

    /** What the staged messages say, at the moment one looks. */
    ghost predicate Holds(values: seq<MessageValue>)
      requires Valid()
      reads this, memory
    {
      |values| == |messages| && forall i :: 0 <= i < |messages| ==> ValueOf(messages[i]) == values[i]
    }

    constructor (limit: nat, maxBytes: Int)
      requires limit <= MAX_INT64 && 0 < maxBytes
      ensures Valid() && memory == {} && messages == [] && maxMessages == limit && this.maxBytes == maxBytes
    {
      maxMessages, this.maxBytes := limit, maxBytes;
      messages, buffered, totalSize, totalCount, memory := [], 0, 0, 0, {};
    }

    /** Accepts a message exactly when both limits allow it, and then holds a deep copy of it; otherwise changes nothing. */
    method Add(m: Message) returns (ok: bool, ghost staged: Message)
      requires Valid() && Addressable(m)
      modifies this
      ensures Valid()
      ensures ok <==> |old(messages)| < maxMessages && SumCosts(old(messages)) + Cost(m) <= maxBytes as int
      ensures !ok ==> messages == old(messages) && memory == old(memory)
      ensures ok ==> messages == old(messages) + [staged] && ValueOf(staged) == old(ValueOf(m)) && Cost(staged) == Cost(m)
      ensures old(memory) <= memory && fresh(memory - old(memory))
    {
      hide SumCosts, SumBodies, Cost, HeadersCost, ValueOf;
      staged := m;
      if |messages| >= maxMessages {
        return false, m;
      }
      var bytes;
      bytes, ok := BoundedMessageBytes(m, maxBytes - buffered);
      if !ok {
        return;
      }
      var cloned := CloneMessage(m);
      ghost var all: set<object> := Arrays(cloned) + Arrays(m);
      assert this !in all;
      Append(cloned, bytes);
      staged := cloned;
    }

    method Append(cloned: Message, bytes: Int)
      requires Valid() && |messages| < maxMessages
      requires bytes as int == Cost(cloned) && SumCosts(messages) + Cost(cloned) <= maxBytes as int
      modifies this
      ensures Valid() && messages == old(messages) + [cloned] && memory == old(memory) + Arrays(cloned)
    {
      hide SumCosts, SumBodies, Cost, Arrays;
      SumsOneMore(messages, cloned);
      BodiesWithinCosts(messages + [cloned]);
      memory := memory + Arrays(cloned);
      messages := messages + [cloned];
      buffered := buffered + bytes;
      totalSize := totalSize + Len(cloned.body) as Int;
      totalCount := totalCount + 1;
    }
  }

  // ---- Reading the source ------------------------------------------------

  datatype Request = Request(source: string, target: string, dryRun: bool)

  datatype Result = Result(request: Request, count: int)

  datatype ReadError = SourceFailed | LimitExceeded | Inconsistent

  /** A message as a source emits it: where it lies, and what the source has written there. */
  datatype Emission = Emission(message: Message, memory: map<array<bv8>, seq<bv8>>)

  ghost predicate Complete(e: Emission) {
    && e.memory.Keys == Arrays(e.message)
    && (forall a :: a in e.memory ==> |e.memory[a]| == a.Length)
    && Addressable(e.message)
  }

  ghost function SaidBytes(memory: map<array<bv8>, seq<bv8>>, a: array?<bv8>): Option<seq<bv8>> {
    if a == null then None else if a in memory then Some(memory[a]) else Some([])
  }

  /** What the source says with an emission. It depends on nothing that happens in memory later. */
  ghost function Said(e: Emission): MessageValue {
    MessageValue(e.message.coordinate, SaidBytes(e.memory, e.message.key), SaidBytes(e.memory, e.message.body),
                 if e.message.headers.Some? then Some(map k | k in e.message.headers.value :: SaidBytes(e.memory, e.message.headers.value[k]))
                 else None)
  }

  ghost function AllSaid(emissions: seq<Emission>): seq<MessageValue> {
    seq(|emissions|, i requires 0 <= i < |emissions| => Said(emissions[i]))
  }

  function MessagesOf(emissions: seq<Emission>): seq<Message> {
    seq(|emissions|, i requires 0 <= i < |emissions| => emissions[i].message)
  }

  function AllArrays(emissions: seq<Emission>): set<array<bv8>> {
    set e, a | e in emissions && a in Arrays(e.message) :: a
  }

  ghost predicate AllComplete(emissions: seq<Emission>) {
    forall e :: e in emissions ==> Complete(e)
  }

  // ---- What the stage costs, in terms of what was said ---------------------

  ghost function Bytes(b: Option<seq<bv8>>): nat {
    if b.Some? then |b.value| else 0
  }

  /** 128 bytes, the name and the value for each header; no order of them is singled out. */
  ghost function HeaderBytes(headers: map<string, Option<seq<bv8>>>): nat
    decreases |headers|
  {
    if headers == map[] then 0 else
      var k :| k in headers;
      128 + |k| + Bytes(headers[k]) + HeaderBytes(headers - {k})
  }

  /** Any header may be counted first. */
  lemma {:induction false} AnyNameFirst(headers: map<string, Option<seq<bv8>>>, k: string)
    requires k in headers
    ensures HeaderBytes(headers) == 128 + |k| + Bytes(headers[k]) + HeaderBytes(headers - {k})
    decreases |headers|
  {
    var first :| first in headers && HeaderBytes(headers) == 128 + |first| + Bytes(headers[first]) + HeaderBytes(headers - {first});
    if first != k {
      AnyNameFirst(headers - {first}, k);
      AnyNameFirst(headers - {k}, first);
      assert headers - {first} - {k} == headers - {k} - {first};
    }
  }

  /** 256 bytes for a message, its key, its body and its headers. */
  ghost function ValueBytes(v: MessageValue): nat {
    256 + Bytes(v.key) + Bytes(v.body) + if v.headers.Some? then HeaderBytes(v.headers.value) else 0
  }

  ghost function StageBytes(values: seq<MessageValue>): nat {
    if values == [] then 0 else StageBytes(values[..|values| - 1]) + ValueBytes(Last(values))
  }

  lemma {:induction false} SameHeaderBytes(a: map<string, array?<bv8>>, b: map<string, Option<seq<bv8>>>)
    requires a.Keys == b.Keys && forall k :: k in a ==> Len(a[k]) == Bytes(b[k])
    ensures HeadersCost(a) == HeaderBytes(b)
    decreases |a|
  {
    if a.Keys != {} {
      var k :| k in a.Keys;
      AnyHeaderFirst(a, k);
      AnyNameFirst(b, k);
      SameHeaderBytes(a - {k}, b - {k});
    } else {
      assert a == map[] && b == map[];
    }
  }

  /** The budget of a message is the size of what is said with it. */
  lemma SaidBytesCount(e: Emission)
    requires Complete(e)
    ensures Cost(e.message) == ValueBytes(Said(e))
  {
    if e.message.headers.Some? {
      var headers, said := e.message.headers.value, Said(e).headers.value;
      forall k | k in headers ensures Len(headers[k]) == Bytes(said[k]) {
        assert headers[k] != null ==> headers[k] in HeaderArrays(headers);
      }
      SameHeaderBytes(headers, said);
    }
  }

  lemma {:induction false} StageBytesCount(emissions: seq<Emission>)
    requires AllComplete(emissions)
    ensures SumCosts(MessagesOf(emissions)) == StageBytes(AllSaid(emissions))
  {
    hide Cost, ValueBytes, Said, Complete;
    if emissions != [] {
      var front := emissions[..|emissions| - 1];
      assert emissions == front + [Last(emissions)];
      StageBytesCount(front);
      SaidBytesCount(Last(emissions));
      assert MessagesOf(emissions)[..|emissions| - 1] == MessagesOf(front);
      assert AllSaid(emissions)[..|emissions| - 1] == AllSaid(front);
    }
  }

  method Fill(a: array<bv8>, contents: seq<bv8>)
    requires |contents| == a.Length
    modifies a
    ensures a[..] == contents
  {
    for i := 0 to a.Length
      invariant a[..i] == contents[..i]
    {
      a[i] := contents[i];
    }
  }

  /** The source writes what it has to say, possibly over what it said before. */
  method Refill(e: Emission)
    requires Complete(e)
    modifies Arrays(e.message)
    ensures ValueOf(e.message) == Said(e)
  {
    var rest := e.memory.Keys;
    while rest != {}
      invariant rest <= e.memory.Keys
      invariant forall a :: a in e.memory && a !in rest ==> a[..] == e.memory[a]
      decreases |rest|
    {
      var a :| a in rest;
      Fill(a, e.memory[a]);
      rest := rest - {a};
    }
    FilledSays(e);
  }

  lemma FilledSays(e: Emission)
    requires Complete(e) && forall a :: a in e.memory ==> a[..] == e.memory[a]
    ensures ValueOf(e.message) == Said(e)
  {
    if e.message.headers.Some? {
      var headers := e.message.headers.value;
      forall k | k in headers ensures BytesOf(headers[k]) == SaidBytes(e.memory, headers[k]) {
        assert headers[k] != null ==> headers[k] in HeaderArrays(headers);
      }
      assert HeaderValues(headers) == map k | k in headers :: SaidBytes(e.memory, headers[k]);
    }
  }

  /** Between two messages a source may use its memory for anything. */
  method Scribble(arrays: set<array<bv8>>)
    modifies arrays
  {
    var rest := arrays;
    while rest != {}
      invariant rest <= arrays
      decreases |rest|
    {
      var a :| a in rest;
      for i := 0 to a.Length {
        var byte: bv8 := *;
        a[i] := byte;
      }
      rest := rest - {a};
    }
  }

  /** Adding to a buffer that holds certain values makes it hold one more, or the same. */
  method AddValue(buffer: ReadBuffer, m: Message, ghost emitted: seq<MessageValue>) returns (ok: bool)
    requires buffer.Valid() && Addressable(m) && buffer.Holds(emitted)
    modifies buffer
    ensures buffer.Valid() && old(buffer.memory) <= buffer.memory && fresh(buffer.memory - old(buffer.memory))
    ensures ok <==> |old(buffer.messages)| < buffer.maxMessages && SumCosts(old(buffer.messages)) + Cost(m) <= buffer.maxBytes as int
    ensures ok ==> buffer.Holds(emitted + [old(ValueOf(m))]) && SumCosts(buffer.messages) == SumCosts(old(buffer.messages)) + Cost(m)
    ensures !ok ==> buffer.Holds(emitted) && buffer.messages == old(buffer.messages)
  {
    hide SumCosts, Cost, Addressable;
    ghost var staged, before := m, buffer.messages;
    ok, staged := buffer.Add(m);
    if ok {
      SumsOneMore(before, staged);
    }
    forall i | 0 <= i < |emitted| ensures ValueOf(before[i]) == emitted[i] {
      assert old(ValueOf(before[i])) == emitted[i];
      ghost var all: set<object> := Arrays(before[i]);
      assert buffer !in all;
    }
  }

  /** One emission: the source fills its part of its memory, and the buffer keeps what it then says. */
  method Emit(buffer: ReadBuffer, e: Emission, arrays: set<array<bv8>>, ghost values: seq<MessageValue>) returns (ok: bool)
    requires Complete(e) && Arrays(e.message) <= arrays
    requires buffer.Valid() && buffer.Holds(values) && buffer.memory !! arrays
    modifies buffer, arrays
    ensures buffer.Valid() && fresh(buffer.memory - old(buffer.memory)) && buffer.memory !! arrays
    ensures ok <==> |old(buffer.messages)| < buffer.maxMessages && SumCosts(old(buffer.messages)) + Cost(e.message) <= buffer.maxBytes as int
    ensures ok ==> buffer.Holds(values + [Said(e)]) && SumCosts(buffer.messages) == SumCosts(old(buffer.messages)) + Cost(e.message)
    ensures ok ==> |buffer.messages| == |old(buffer.messages)| + 1
    ensures !ok ==> buffer.Holds(values) && buffer.messages == old(buffer.messages)
  {
    ghost var all: set<object> := arrays;
    assert buffer !in all;
    hide SumCosts, Cost, Addressable, ValueOf, Arrays, Said;
    Scribble(arrays);
    Refill(e);
    ok := AddValue(buffer, e.message, values);
    Scribble(arrays);
  }

  /** The buffer holds what the source said with its first `n` emissions, and costs what those cost. */
  ghost predicate Staged(buffer: ReadBuffer, emissions: seq<Emission>, n: nat)
    reads buffer, buffer.memory
  {
    && buffer.Valid() && n <= |emissions| && |buffer.messages| == n
    && buffer.Holds(AllSaid(emissions)[..n])
    && SumCosts(buffer.messages) == SumCosts(MessagesOf(emissions)[..n])
  }

  /** Whether the first `n` emissions are within both limits. */
  ghost predicate Fits(buffer: ReadBuffer, emissions: seq<Emission>, n: nat)
    requires n <= |emissions|
  {
    n <= buffer.maxMessages && SumCosts(MessagesOf(emissions)[..n]) <= buffer.maxBytes as int
  }

  method StageNext(buffer: ReadBuffer, emissions: seq<Emission>, n: nat, arrays: set<array<bv8>>) returns (ok: bool)
    requires n < |emissions| && Complete(emissions[n]) && Arrays(emissions[n].message) <= arrays
    requires Staged(buffer, emissions, n) && buffer.memory !! arrays
    modifies buffer, arrays
    ensures fresh(buffer.memory - old(buffer.memory)) && buffer.memory !! arrays
    ensures ok <==> Fits(buffer, emissions, n + 1)
    ensures ok ==> Staged(buffer, emissions, n + 1)
    ensures !ok ==> Staged(buffer, emissions, n)
  {
    hide SumCosts, Cost, Complete, Said, Arrays;
    ghost var messages, values := MessagesOf(emissions), AllSaid(emissions);
    SumsPrefix(messages, n);
    assert values[..n + 1] == values[..n] + [Said(emissions[n])];
    ok := Emit(buffer, emissions[n], arrays, values[..n]);
  }

  lemma FitsEarlier(buffer: ReadBuffer, emissions: seq<Emission>, n: nat)
    requires n < |emissions| && !Fits(buffer, emissions, n + 1)
    ensures !Fits(buffer, emissions, |emissions|)
  {
    hide SumCosts, Cost;
    SumsPrefix(MessagesOf(emissions), n);
    assert MessagesOf(emissions)[..|emissions|] == MessagesOf(emissions);
  }

  lemma NothingStaged(buffer: ReadBuffer, emissions: seq<Emission>)
    requires buffer.Valid() && buffer.messages == []
    ensures Staged(buffer, emissions, 0) && Fits(buffer, emissions, 0)
  {
    assert AllSaid(emissions)[..0] == [] && MessagesOf(emissions)[..0] == [];
  }

  lemma WithinAll(emissions: seq<Emission>, e: Emission)
    requires e in emissions && AllComplete(emissions)
    ensures Arrays(e.message) <= AllArrays(emissions) && Complete(e)
  {
  }

  /** The source's loop: it emits until the buffer refuses. */
  method EmitAll(buffer: ReadBuffer, emissions: seq<Emission>) returns (ok: bool)
    requires buffer.Valid() && buffer.messages == [] && buffer.memory == {} && AllComplete(emissions)
    modifies buffer, AllArrays(emissions)
    ensures fresh(buffer.memory) && Staged(buffer, emissions, |buffer.messages|)
    ensures |buffer.messages| < |emissions| ==> !Fits(buffer, emissions, |buffer.messages| + 1)
    ensures ok <==> Fits(buffer, emissions, |emissions|)
    ensures ok ==> |buffer.messages| == |emissions|
  {
    NothingStaged(buffer, emissions);
    hide Staged, Complete, AllComplete, Arrays, AllArrays, Fits;
    var arrays := AllArrays(emissions);
    var i := 0;
    while i < |emissions|
      invariant i <= |emissions| && Staged(buffer, emissions, i) && Fits(buffer, emissions, i)
      invariant fresh(buffer.memory) && buffer.memory !! arrays
    {
      WithinAll(emissions, emissions[i]);
      ok := StageNext(buffer, emissions, i, arrays);
      if !ok {
        FitsEarlier(buffer, emissions, i);
        StagedCount(buffer, emissions, i);
        return;
      }
      i := i + 1;
    }
    StagedCount(buffer, emissions, i);
    ok := true;
  }

  lemma StagedCount(buffer: ReadBuffer, emissions: seq<Emission>, n: nat)
    requires Staged(buffer, emissions, n)
    ensures |buffer.messages| == n
  {
  }

  /**
   The staged messages are, in order, what the source said with its first emissions, whatever it does to its memory
   between and afterwards. Staging stops at the first message that does not fit, and accepts all exactly when they
   fit together.
   */
  method ReadMirrorSource(buffer: ReadBuffer, emissions: seq<Emission>, sourceOk: bool, request: Request, result: Result)
      returns (err: Option<ReadError>)
    requires buffer.Valid() && buffer.messages == [] && buffer.memory == {} && AllComplete(emissions)
    modifies buffer, AllArrays(emissions)
    ensures fresh(buffer.memory) && Staged(buffer, emissions, |buffer.messages|)
    ensures |buffer.messages| < |emissions| ==> !Fits(buffer, emissions, |buffer.messages| + 1)
    ensures err == Some(LimitExceeded) <==> !Fits(buffer, emissions, |emissions|)
    ensures err.None? <==> Fits(buffer, emissions, |emissions|) && sourceOk && result == Result(request, |emissions|)
    ensures err.None? ==> |buffer.messages| == |emissions|
  {
    hide Staged, Fits, AllComplete, AllArrays;
    var ok := EmitAll(buffer, emissions);
    if !ok {
      return Some(LimitExceeded);
    }
    if !sourceOk {
      return Some(SourceFailed);
    }
    if result.request != request || result.count != |buffer.messages| {
      return Some(Inconsistent);
    }
    return None;
  }

  // ---- Producing ---------------------------------------------------------

  datatype Code =
    | UsageError | AuthFailed | ResourceNotFound | ResourceAlreadyExists | ValidationFailed | Conflict | NotImplemented
    | NetworkError | LocalIOError | ServerError | BackendUnreachable | BackendError | AuthorizationRequired
    | PartialFailure | NoChangeRequired | UnsupportedProtocol | CredentialStoreError | CredentialStoreMissing | OtherCode

  datatype ProduceError = Cancelled | Coded(code: Code)

  /** Only the codes of a request refused before it took effect are certain. */
  predicate ProduceIsUncertain(err: ProduceError) {
    match err
    case Cancelled => true
    case Coded(code) =>
      match code
      case UsageError | AuthFailed | ResourceNotFound | ResourceAlreadyExists | ValidationFailed | Conflict | NotImplemented => false
      case _ => true
  }

  datatype Failure = Failure(cause: ProduceError, partial: bool)

  /** A message that was refused before it took effect failed; any other that was not produced is uncertain. */
  ghost predicate CountedAs(cause: ProduceError, outcome: BatchOutcome) {
    if || cause == Coded(UsageError) || cause == Coded(AuthFailed) || cause == Coded(ResourceNotFound)
       || cause == Coded(ResourceAlreadyExists) || cause == Coded(ValidationFailed) || cause == Coded(Conflict)
       || cause == Coded(NotImplemented)
    then outcome.failed == 1 && outcome.uncertain == 0
    else outcome.failed == 0 && outcome.uncertain == 1
  }

  lemma UncertainIsCounted(cause: ProduceError, n: nat)
    ensures ProduceIsUncertain(cause) ==> CountedAs(cause, BatchOutcome(n, 0, 1))
    ensures !ProduceIsUncertain(cause) ==> CountedAs(cause, BatchOutcome(n, 1, 0))
  {
  }

  /** What arrives in the target: the contents, under the target's own coordinate. */
  function Arrived(v: MessageValue, coordinate: string): MessageValue {
    v.(coordinate := coordinate)
  }

  function AllArrived(values: seq<MessageValue>, coordinate: string): seq<MessageValue> {
    seq(|values|, i requires 0 <= i < |values| => Arrived(values[i], coordinate))
  }

  /** The broker produced to. Only Produce adds to its log. */
  class Target {
    ghost var log: seq<MessageValue>
    ghost var failures: nat // how many produce calls failed; only Produce adds to it

    constructor ()
      ensures log == []
    {
      log, failures := [], 0;
    }

    /** Done on success, not done on a certain refusal, either way otherwise. */
    method Produce(m: Message, coordinate: string) returns (err: Option<ProduceError>)
      modifies this
      ensures log == old(log) || log == old(log) + [Arrived(old(ValueOf(m)), coordinate)]
      ensures err.None? ==> log == old(log) + [Arrived(old(ValueOf(m)), coordinate)]
      ensures err.Some? && !ProduceIsUncertain(err.value) ==> log == old(log)
      ensures err.None? ==> failures == old(failures)
      ensures err.Some? ==> failures == old(failures) + 1
    {
      ghost var applied: bool, value := *, ValueOf(m);
      err := *;
      match err {
        case None =>
          log := log + [Arrived(value, coordinate)];
        case Some(failing) =>
          failures := failures + 1;
          if applied && ProduceIsUncertain(failing) {
            log := log + [Arrived(value, coordinate)];
          }
      }
    }
  }

  /** The target gained exactly the first messages, and perhaps the next one when that one is uncertain. */
  ghost predicate Extended(before: seq<MessageValue>, values: seq<MessageValue>, coordinate: string, outcome: BatchOutcome, after: seq<MessageValue>) {
    && 0 <= outcome.succeeded <= |values|
    && (after == before + AllArrived(values[..outcome.succeeded], coordinate)
        || (outcome.uncertain == 1 && outcome.succeeded < |values|
            && after == before + AllArrived(values[..outcome.succeeded + 1], coordinate)))
  }

  lemma ArrivedOneMore(values: seq<MessageValue>, n: nat, coordinate: string)
    requires n < |values|
    ensures AllArrived(values[..n + 1], coordinate) == AllArrived(values[..n], coordinate) + [Arrived(values[n], coordinate)]
  {
  }

  /** Producing the staged messages in order, stopping at the first failure. */
  method ProduceMirrored(target: Target, buffer: ReadBuffer, coordinate: string, ghost values: seq<MessageValue>)
      returns (outcome: BatchOutcome, failure: Option<Failure>)
    requires buffer.Valid() && buffer.Holds(values)
    modifies target
    ensures outcome.NonNegative() && outcome.Count() <= |values|
    ensures outcome.failed + outcome.uncertain == if failure.None? then 0 else 1
    ensures Extended(old(target.log), values, coordinate, outcome, target.log)
    ensures failure.None? ==> outcome.succeeded == |values| && target.failures == old(target.failures)
    ensures failure.Some? ==> (failure.value.partial <==> outcome.succeeded > 0 || outcome.uncertain > 0)
    ensures failure.Some? ==> CountedAs(failure.value.cause, outcome) && target.failures > old(target.failures)
  {
    outcome, failure := BatchOutcome(0, 0, 0), None;
    var i := 0;
    assert AllArrived(values[..0], coordinate) == [];
    ghost var all: set<object> := buffer.memory;
    assert target !in all;
    hide ValueOf, AllArrived, Arrived;
    while i < |buffer.messages|
      invariant i <= |buffer.messages| && outcome == BatchOutcome(i, 0, 0)
      invariant buffer.Valid() && buffer.Holds(values)
      invariant target.log == old(target.log) + AllArrived(values[..i], coordinate)
      invariant target.failures == old(target.failures)
    {
      var err := target.Produce(buffer.messages[i], coordinate);
      ArrivedOneMore(values, i, coordinate);
      if err.Some? {
        if ProduceIsUncertain(err.value) {
          outcome := outcome.(uncertain := outcome.uncertain + 1);
        } else {
          outcome := outcome.(failed := outcome.failed + 1);
        }
        UncertainIsCounted(err.value, i);
        failure := Some(Failure(err.value, outcome.succeeded != 0 || outcome.uncertain != 0));
        return;
      }
      outcome := outcome.(succeeded := outcome.succeeded + 1);
      i := i + 1;
    }
  }

  /** The whole mirror: nothing is produced unless the whole bounded read was staged, and then only what the source said. */
  method Mirror(target: Target, emissions: seq<Emission>, sourceOk: bool, request: Request, result: Result, limit: nat, maxBytes: Int)
      returns (err: Option<ReadError>, outcome: BatchOutcome, failure: Option<Failure>)
    requires limit <= MAX_INT64 && 0 < maxBytes && AllComplete(emissions)
    modifies target, AllArrays(emissions)
    ensures err.None? <==>
              && |emissions| <= limit && StageBytes(AllSaid(emissions)) <= maxBytes as int
              && sourceOk && result == Result(request, |emissions|)
    ensures err.None? && !request.dryRun ==> Extended(old(target.log), AllSaid(emissions), request.target, outcome, target.log)
    ensures err.None? && !request.dryRun && failure.None? ==>
              && |target.log| == |old(target.log)| + |emissions|
              && forall i :: 0 <= i < |emissions| ==>
                   target.log[|old(target.log)| + i] == Said(emissions[i]).(coordinate := request.target)
    ensures failure.Some? ==> target.failures > old(target.failures) && CountedAs(failure.value.cause, outcome)
    ensures err.Some? || request.dryRun ==> target.log == old(target.log) && outcome == BatchOutcome(0, 0, 0)
    ensures outcome.Count() <= |emissions| && outcome.NonNegative()
  {
    outcome, failure := BatchOutcome(0, 0, 0), None;
    var buffer := new ReadBuffer(limit, maxBytes);
    assert SumCosts([]) == 0;
    StageBytesCount(emissions);
    hide SumCosts, StageBytes, Said, ValueOf, AllArrived, Arrays, Complete;
    ghost var sources: set<object> := AllArrays(emissions);
    assert target !in sources;
    err := ReadMirrorSource(buffer, emissions, sourceOk, request, result);
    ghost var values := AllSaid(emissions);
    assert MessagesOf(emissions)[..|emissions|] == MessagesOf(emissions);
    if err.None? && !request.dryRun {
      assert values[..|emissions|] == values;
      outcome, failure := ProduceMirrored(target, buffer, request.target, values);
    }
  }
}

/** The audit record of a mirror. */
module MirrorAudit {
  import opened Common
  import opened OutcomeRecords

  /** It plans as many items as were staged, and what was counted always replays. */
  lemma MirrorReplays(handle: Handle, now: Timestamp, sequence: nat, staged: nat, outcome: BatchOutcome, err: Option<OperationError>)
    requires Ready(handle, now, sequence) && WellFormedError(err) && handle.spec.metadata.items == staged
    requires outcome.NonNegative() && outcome.Count() <= staged
    ensures Replays(handle, Normalize(BatchResult(staged, outcome, err), err), now, sequence)
    ensures OwnOutcome(Normalize(BatchResult(staged, outcome, err), err), staged)
  {
    hide Replays, Normalize, BatchResult;
    BatchReplays(handle, now, sequence, staged, outcome, err);
    var source := Batch(staged, outcome, err);
    assert CallerBound(source, staged) && OutcomeOf(source, staged) == Normalize(BatchResult(staged, outcome, err), err);
  }
}
