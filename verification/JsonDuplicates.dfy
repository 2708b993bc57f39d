/**
 Looking for repeated member names in a JSON text, as a stream of tokens: object names are to be
 unique (section 4 of RFC 8259), here up to the case of their letters.
 */
module JsonDuplicates {
  import opened Common

  datatype Token = OpenObject | CloseObject | OpenArray | CloseArray | Str(text: string) | Literal(text: string)

  /** What the decoder's own nesting lets come next. */
  datatype Place = AtValue | AtName | AtObjectEnd | AtArrayEnd

  /** Two names that differ in case only. */
  type Fold = (string, string) -> bool

  // ---- JSON values -------------------------------------------------------

  datatype Json = Text(text: string) | Other(text: string) | Array(items: Items) | Object(members: Members)

  datatype Items = NoItems | Item(first: Json, others: Items)

  datatype Members = NoMembers | Member(name: string, value: Json, others: Members)

  function Tokens(v: Json): seq<Token> {
    match v
    case Text(text) => [Str(text)]
    case Other(text) => [Literal(text)]
    case Array(items) => [OpenArray] + ItemTokens(items) + [CloseArray]
    case Object(members) => [OpenObject] + MemberTokens(members) + [CloseObject]
  }

  function ItemTokens(items: Items): seq<Token> {
    match items
    case NoItems => []
    case Item(first, others) => Tokens(first) + ItemTokens(others)
  }

  function MemberTokens(members: Members): seq<Token> {
    match members
    case NoMembers => []
    case Member(name, value, others) => [Str(name)] + Tokens(value) + MemberTokens(others)
  }

  function Names(members: Members): seq<string> {
    match members
    case NoMembers => []
    case Member(name, _, others) => [name] + Names(others)
  }

  ghost predicate Repeats(same: Fold, names: seq<string>) {
    exists i, j :: 0 <= i < j < |names| && same(names[i], names[j])
  }

  /** Some object at any depth has two names that are the same up to case. */
  ghost predicate HasDuplicate(same: Fold, v: Json) {
    match v
    case Array(items) => SomeItemHas(same, items)
    case Object(members) => Repeats(same, Names(members)) || SomeMemberHas(same, members)
    case _ => false
  }

  ghost predicate SomeItemHas(same: Fold, items: Items) {
    items.Item? && (HasDuplicate(same, items.first) || SomeItemHas(same, items.others))
  }

  ghost predicate SomeMemberHas(same: Fold, members: Members) {
    members.Member? && (HasDuplicate(same, members.value) || SomeMemberHas(same, members.others))
  }

  // ---- The scan over tokens ----------------------------------------------

  datatype Scan = Malformed | Duplicate | Clean(rest: seq<Token>)

  predicate Allows(place: Place, token: Token) {
    match place
    case AtValue => !token.CloseObject? && !token.CloseArray?
    case AtName => token.Str?
    case AtObjectEnd => token.CloseObject?
    case AtArrayEnd => token.CloseArray?
  }

  predicate Closes(token: Token) {
    token.CloseObject? || token.CloseArray?
  }

  predicate Known(same: Fold, names: seq<string>, name: string) {
    exists i :: 0 <= i < |names| && same(names[i], name)
  }

  function ScanValue(same: Fold, s: seq<Token>): (r: Scan)
    ensures r.Clean? ==> |r.rest| < |s|
    decreases |s|, 0
  {
    if s == [] || !Allows(AtValue, s[0]) then Malformed
    else
      match s[0]
      case OpenObject => ScanMembers(same, s[1..], [])
      case OpenArray => ScanItems(same, s[1..])
      case _ => Clean(s[1..])
  }

  function ScanItems(same: Fold, s: seq<Token>): (r: Scan)
    ensures r.Clean? ==> |r.rest| < |s|
    decreases |s|, 1
  {
    if s == [] then Malformed
    else if Closes(s[0]) then if s[0] == CloseArray then Clean(s[1..]) else Malformed
    else
      var value := ScanValue(same, s);
      if value.Clean? then ScanItems(same, value.rest) else value
  }

  function ScanMembers(same: Fold, s: seq<Token>, names: seq<string>): (r: Scan)
    ensures r.Clean? ==> |r.rest| < |s|
    decreases |s|, 1
  {
    if s == [] then Malformed
    else if Closes(s[0]) then if s[0] == CloseObject then Clean(s[1..]) else Malformed
    else if !s[0].Str? then Malformed
    else if Known(same, names, s[0].text) then Duplicate
    else
      var value := ScanValue(same, s[1..]);
      if value.Clean? then ScanMembers(same, value.rest, names + [s[0].text]) else value
  }

  // ---- What the scan finds in a well-formed text -------------------------

  lemma TokensStart(v: Json)
    ensures |Tokens(v)| > 0 && !Closes(Tokens(v)[0])
  {
  }

  function Verdict(duplicate: bool, rest: seq<Token>): Scan {
    if duplicate then Duplicate else Clean(rest)
  }

  /** The scan reports a duplicate exactly when there is one, and otherwise consumes exactly the value's tokens. */
  lemma {:induction false} ScanFindsDuplicates(same: Fold, v: Json, rest: seq<Token>)
    ensures ScanValue(same, Tokens(v) + rest) == Verdict(HasDuplicate(same, v), rest)
    decreases v, 0
  {
    hide ScanItems, ScanMembers, ItemTokens, MemberTokens, Names;
    var s := Tokens(v) + rest;
    match v {
      case Text(_) =>
        assert s[1..] == rest;
      case Other(_) =>
        assert s[1..] == rest;
      case Array(items) =>
        assert s[1..] == ItemTokens(items) + ([CloseArray] + rest);
        ScanFindsInItems(same, items, rest);
      case Object(members) =>
        assert s[1..] == MemberTokens(members) + ([CloseObject] + rest);
        assert [] + Names(members) == Names(members);
        ScanFindsInMembers(same, members, [], rest);
    }
  }

  lemma {:induction false} ScanFindsInItems(same: Fold, items: Items, rest: seq<Token>)
    ensures ScanItems(same, ItemTokens(items) + ([CloseArray] + rest)) == Verdict(SomeItemHas(same, items), rest)
    decreases items, 1
  {
    var end := [CloseArray] + rest;
    match items {
      case NoItems =>
        assert (ItemTokens(items) + end) == end;
      case Item(first, others) =>
        var more := ItemTokens(others) + end;
        assert ItemTokens(items) + end == Tokens(first) + more;
        TokensStart(first);
        ScanFindsDuplicates(same, first, more);
        ScanFindsInItems(same, others, rest);
    }
  }

  lemma {:induction false} ScanFindsInMembers(same: Fold, members: Members, names: seq<string>, rest: seq<Token>)
    requires !Repeats(same, names)
    ensures ScanMembers(same, MemberTokens(members) + ([CloseObject] + rest), names)
         == Verdict(Repeats(same, names + Names(members)) || SomeMemberHas(same, members), rest)
    decreases members, 1
  {
    var end := [CloseObject] + rest;
    match members {
      case NoMembers =>
        assert MemberTokens(members) + end == end;
        assert names + Names(members) == names;
      case Member(name, value, others) =>
        var more := MemberTokens(others) + end;
        var s := MemberTokens(members) + end;
        assert s == [Str(name)] + (Tokens(value) + more);
        assert s[1..] == Tokens(value) + more;
        var all := names + Names(members);
        assert all == (names + [name]) + Names(others);
        KnownIsRepeat(same, names, name);
        if Known(same, names, name) {
          RepeatsGrow(same, names + [name], Names(others));
        } else {
          ScanFindsDuplicates(same, value, more);
          ScanFindsInMembers(same, others, names + [name], rest);
        }
    }
  }

  /** What the scan accepts is a value, and the value has no duplicate. */
  lemma {:induction false} ScanAcceptsValues(same: Fold, s: seq<Token>) returns (v: Json)
    requires ScanValue(same, s).Clean?
    ensures s == Tokens(v) + ScanValue(same, s).rest && !HasDuplicate(same, v)
    decreases |s|, 0
  {
    var rest := ScanValue(same, s).rest;
    assert s == [s[0]] + s[1..];
    match s[0] {
      case OpenObject =>
        var members := ScanAcceptsMembers(same, s[1..], []);
        v := Object(members);
        assert s == [OpenObject] + (MemberTokens(members) + ([CloseObject] + rest));
        assert s == Tokens(v) + rest;
      case OpenArray =>
        var items := ScanAcceptsItems(same, s[1..]);
        v := Array(items);
        assert s == [OpenArray] + (ItemTokens(items) + ([CloseArray] + rest));
        assert s == Tokens(v) + rest;
      case Str(text) =>
        v := Text(text);
      case Literal(text) =>
        v := Other(text);
    }
    ScanFindsDuplicates(same, v, rest);
  }

  lemma {:induction false} ScanAcceptsItems(same: Fold, s: seq<Token>) returns (items: Items)
    requires ScanItems(same, s).Clean?
    ensures s == ItemTokens(items) + ([CloseArray] + ScanItems(same, s).rest)
    decreases |s|, 1
  {
    var rest := ScanItems(same, s).rest;
    if Closes(s[0]) {
      items := NoItems;
      assert s == [CloseArray] + s[1..];
    } else {
      var value := ScanValue(same, s);
      var first := ScanAcceptsValues(same, s);
      var others := ScanAcceptsItems(same, value.rest);
      items := Item(first, others);
      assert s == Tokens(first) + (ItemTokens(others) + ([CloseArray] + rest));
    }
  }

  lemma {:induction false} ScanAcceptsMembers(same: Fold, s: seq<Token>, names: seq<string>) returns (members: Members)
    requires ScanMembers(same, s, names).Clean?
    ensures s == MemberTokens(members) + ([CloseObject] + ScanMembers(same, s, names).rest)
    decreases |s|, 1
  {
    var rest := ScanMembers(same, s, names).rest;
    if Closes(s[0]) {
      members := NoMembers;
      assert s == [CloseObject] + s[1..];
    } else {
      var value := ScanValue(same, s[1..]);
      var first := ScanAcceptsValues(same, s[1..]);
      var others := ScanAcceptsMembers(same, value.rest, names + [s[0].text]);
      members := Member(s[0].text, first, others);
      JoinedMember(s[0].text, first, others, [CloseObject] + rest);
      hide Tokens, MemberTokens;
      assert s == [s[0]] + s[1..];
    }
  }

  lemma JoinedMember(name: string, value: Json, others: Members, end: seq<Token>)
    ensures MemberTokens(Member(name, value, others)) + end == [Str(name)] + (Tokens(value) + (MemberTokens(others) + end))
  {
  }

  lemma KnownIsRepeat(same: Fold, names: seq<string>, name: string)
    requires !Repeats(same, names)
    ensures Repeats(same, names + [name]) <==> Known(same, names, name)
  {
    var more := names + [name];
    if Known(same, names, name) {
      var i :| 0 <= i < |names| && same(names[i], name);
      assert same(more[i], more[|names|]);
    }
    forall i, j | 0 <= i < j < |more| && !Known(same, names, name) ensures !same(more[i], more[j]) {
      assert more[i] == names[i];
      if j < |names| {
        assert more[j] == names[j];
      }
    }
  }

  lemma RepeatsGrow(same: Fold, names: seq<string>, more: seq<string>)
    requires Repeats(same, names)
    ensures Repeats(same, names + more)
  {
    var i, j :| 0 <= i < j < |names| && same(names[i], names[j]);
    assert same((names + more)[i], (names + more)[j]);
  }

  // ---- The decoder -------------------------------------------------------

  class Decoder {
    const tokens: seq<Token>
    var pos: nat

    ghost predicate Valid()
      reads this
    {
      pos <= |tokens|
    }

    ghost function Rest(): seq<Token>
      requires Valid()
      reads this
    {
      tokens[pos..]
    }

    constructor (tokens: seq<Token>)
      ensures Valid() && Rest() == tokens
    {
      this.tokens, pos := tokens, 0;
    }

    method Next(place: Place) returns (token: Option<Token>)
      requires Valid()
      modifies this
      ensures Valid()
      ensures token.None? <==> old(Rest()) == [] || !Allows(place, old(Rest())[0])
      ensures token.None? ==> Rest() == old(Rest())
      ensures token.Some? ==> token.value == old(Rest())[0] && Rest() == old(Rest())[1..]
    {
      if pos == |tokens| || !Allows(place, tokens[pos]) {
        return None;
      }
      token := Some(tokens[pos]);
      pos := pos + 1;
    }

    predicate More()
      requires Valid()
      reads this
    {
      pos < |tokens| && !Closes(tokens[pos])
    }
  }

  /** What a call reports, as the scan of what was left to read. */
  ghost predicate Reports(scan: Scan, duplicate: bool, ok: bool, rest: seq<Token>) {
    match scan
    case Malformed => !ok && !duplicate
    case Duplicate => ok && duplicate
    case Clean(expected) => ok && !duplicate && rest == expected
  }

  method NameIsKnown(same: Fold, names: seq<string>, name: string) returns (known: bool)
    ensures known <==> Known(same, names, name)
  {
    for i := 0 to |names|
      invariant forall k :: 0 <= k < i ==> !same(names[k], name)
    {
      if same(names[i], name) {
        return true;
      }
    }
    return false;
  }

  /** The recursive check: its report is the scan's, and it leaves the decoder behind the value it accepted. */
  method JsonValueHasDuplicateKeyFold(decoder: Decoder, same: Fold) returns (duplicate: bool, ok: bool)
    requires decoder.Valid()
    modifies decoder
    ensures decoder.Valid() && decoder.pos >= old(decoder.pos)
    ensures Reports(ScanValue(same, old(decoder.Rest())), duplicate, ok, decoder.Rest())
    decreases |decoder.tokens| - decoder.pos
  {
    hide Known;
    ghost var start := decoder.Rest();
    var token := decoder.Next(AtValue);
    if token.None? {
      return false, false;
    }
    match token.value {
      case OpenObject =>
        var names: seq<string> := [];
        while decoder.More()
          invariant decoder.Valid() && decoder.pos > old(decoder.pos)
          invariant ScanMembers(same, decoder.Rest(), names) == ScanValue(same, start)
          decreases |decoder.tokens| - decoder.pos
        {
          var name := decoder.Next(AtName);
          if name.None? {
            return false, false;
          }
          var text := name.value.text;
          var known := NameIsKnown(same, names, text);
          if known {
            return true, true;
          }
          names := names + [text];
          duplicate, ok := JsonValueHasDuplicateKeyFold(decoder, same);
          if !ok || duplicate {
            return duplicate, ok;
          }
        }
        var close := decoder.Next(AtObjectEnd);
        return false, close.Some?;
      case OpenArray =>
        while decoder.More()
          invariant decoder.Valid() && decoder.pos > old(decoder.pos)
          invariant ScanItems(same, decoder.Rest()) == ScanValue(same, start)
          decreases |decoder.tokens| - decoder.pos
        {
          duplicate, ok := JsonValueHasDuplicateKeyFold(decoder, same);
          if !ok || duplicate {
            return duplicate, ok;
          }
        }
        var close := decoder.Next(AtArrayEnd);
        return false, close.Some?;
      case _ =>
        return false, true;
    }
  }

  /** The check of a whole text: for a well-formed value it is a duplicate or anything after the value that it objects to. */
  method HasDuplicateJSONKeyFold(tokens: seq<Token>, same: Fold) returns (objects: bool)
    ensures objects <==> match ScanValue(same, tokens)
                         case Malformed => false
                         case Duplicate => true
                         case Clean(rest) => rest != []
    ensures forall v: Json, rest: seq<Token> {:trigger Tokens(v) + rest} ::
              tokens == Tokens(v) + rest ==> (objects <==> HasDuplicate(same, v) || rest != [])
  {
    var decoder := new Decoder(tokens);
    var duplicate, ok := JsonValueHasDuplicateKeyFold(decoder, same);
    if !ok {
      objects := false;
    } else {
      objects := duplicate || decoder.pos < |decoder.tokens|;
    }
    forall v: Json, rest: seq<Token> {:trigger Tokens(v) + rest} | tokens == Tokens(v) + rest
      ensures objects <==> HasDuplicate(same, v) || rest != []
    {
      ScanFindsDuplicates(same, v, rest);
    }
  }
}
