/** The canonical JSON encoder: values, the encoder, and a reference decoder. */
module Jcs {
  import opened Options
  import opened Text

  /** A JSON value as the program holds it.  An object lists its members in insertion order; `Float` and
      `Alien` stand for the values the encoder refuses. */
  datatype Json =
    | Null
    | Bool(on: bool)
    | Int(n: int)
    | Str(text: Text)
    | List(items: seq<Json>)
    | Object(members: seq<Member>)
    | Float
    | Alien

  datatype Member = Member(key: Text, value: Json)

  /** Why encoding fails: an IEEE float, a value of no JSON type, a key that has no UTF-16 form. */
  datatype Error = IeeeFloat | UnsupportedType | BadKey

  function MaxOf(a: nat, b: nat): nat {
    if a < b then b else a
  }

  function Depth(v: Json): nat {
    match v
    case List(items) => 1 + DepthOfItems(items)
    case Object(members) => 1 + DepthOfMembers(members)
    case _ => 0
  }

  function DepthOfItems(items: seq<Json>): (d: nat)
    ensures forall i :: 0 <= i < |items| ==> Depth(items[i]) <= d
  {
    if items == [] then 0 else MaxOf(Depth(items[0]), DepthOfItems(items[1..]))
  }

  function DepthOfMembers(members: seq<Member>): (d: nat)
    ensures forall i :: 0 <= i < |members| ==> Depth(members[i].value) <= d
  {
    if members == [] then 0 else MaxOf(Depth(members[0].value), DepthOfMembers(members[1..]))
  }

  // ---- strings ----------------------------------------------------------------------------------------------

  const QUOTE := 34
  const COMMA := 44
  const MINUS := 45
  const COLON := 58
  const OPEN_LIST := 91
  const BACKSLASH := 92
  const CLOSE_LIST := 93
  const OPEN_OBJECT := 123
  const CLOSE_OBJECT := 125

  function Hex(d: nat): nat {
    if d < 10 then ZERO + d else 87 + d
  }

  /** How one character is written inside quotes. */
  function Escaped(c: nat): (e: Text)
    ensures e != []
  {
    if c == QUOTE then [BACKSLASH, QUOTE]
    else if c == BACKSLASH then [BACKSLASH, BACKSLASH]
    else if c == 8 then [BACKSLASH, 98]
    else if c == 12 then [BACKSLASH, 102]
    else if c == 10 then [BACKSLASH, 110]
    else if c == 13 then [BACKSLASH, 114]
    else if c == 9 then [BACKSLASH, 116]
    else if c < 0x20 then [BACKSLASH, 117, ZERO, ZERO, Hex(c / 16), Hex(c % 16)]
    else [c]
  }

  function EscapedAll(s: Text): Text {
    if s == [] then [] else Escaped(s[0]) + EscapedAll(s[1..])
  }

  function Quoted(s: Text): Text {
    [QUOTE] + EscapedAll(s) + [QUOTE]
  }

  lemma Regroup(a: Text, b: Text, c: Text)
    ensures a + b + c == a + (b + c)
  {
  }

  lemma {:induction false} EscapedAllAppend(s: Text, c: nat)
    ensures EscapedAll(s + [c]) == EscapedAll(s) + Escaped(c)
  {
    if s == [] {
      assert [c][1..] == [];
      assert EscapedAll([c]) == Escaped(c) + EscapedAll([]);
    } else {
      EscapedAllAppend(s[1..], c);
      assert (s + [c])[1..] == s[1..] + [c];
      Regroup(Escaped(s[0]), EscapedAll(s[1..]), Escaped(c));
    }
  }

  method EscapeOne(c: nat) returns (e: Text)
    ensures e == Escaped(c)
  {
    if c == QUOTE {
      e := [BACKSLASH, QUOTE];
    } else if c == BACKSLASH {
      e := [BACKSLASH, BACKSLASH];
    } else if c == 8 {
      e := [BACKSLASH, 98];
    } else if c == 12 {
      e := [BACKSLASH, 102];
    } else if c == 10 {
      e := [BACKSLASH, 110];
    } else if c == 13 {
      e := [BACKSLASH, 114];
    } else if c == 9 {
      e := [BACKSLASH, 116];
    } else if c < 0x20 {
      e := [BACKSLASH, 117, ZERO, ZERO, Hex(c / 16), Hex(c % 16)];
    } else {
      e := [c];
    }
  }

  /** The escaping loop. */
  method Escape(s: Text) returns (out: Text)
    ensures out == Quoted(s)
  {
    out := [QUOTE];
    for i := 0 to |s|
      invariant out == [QUOTE] + EscapedAll(s[..i])
    {
      EscapedAllAppend(s[..i], s[i]);
      assert s[..i + 1] == s[..i] + [s[i]];
      var e := EscapeOne(s[i]);
      out := out + e;
    }
    assert s[..|s|] == s;
    out := out + [QUOTE];
  }

  // ---- the order of the members -----------------------------------------------------------------------------------

  predicate HasUtf16(s: Text) {
    forall i :: 0 <= i < |s| ==> !IsSurrogate(s[i])
  }

  /** Keys are compared by their UTF-16 big-endian bytes. */
  predicate KeyLess(a: Text, b: Text) {
    LexLess(Utf16Be(a), Utf16Be(b))
  }

  function InsertMember(m: Member, sorted: seq<Member>): (r: seq<Member>)
    ensures multiset(r) == multiset(sorted) + multiset{m}
    ensures forall x :: x in r <==> x in sorted || x == m
  {
    if sorted == [] || !KeyLess(sorted[0].key, m.key) then [m] + sorted
    else
      assert sorted == [sorted[0]] + sorted[1..];
      [sorted[0]] + InsertMember(m, sorted[1..])
  }

  /** The members in ascending key order. */
  function SortMembers(members: seq<Member>): (r: seq<Member>)
    ensures multiset(r) == multiset(members)
    ensures forall x :: x in r <==> x in members
  {
    if members == [] then []
    else
      assert members == [members[0]] + members[1..];
      InsertMember(members[0], SortMembers(members[1..]))
  }

  lemma SortedDepth(members: seq<Member>)
    ensures forall i :: 0 <= i < |SortMembers(members)| ==> Depth(SortMembers(members)[i].value) < 1 + DepthOfMembers(members)
  {
    var r := SortMembers(members);
    forall i | 0 <= i < |r| ensures Depth(r[i].value) < 1 + DepthOfMembers(members) {
      assert r[i] in r;
    }
  }

  // ---- the encoder ----------------------------------------------------------------------------------------------------

  const NULL_TEXT: Text := [110, 117, 108, 108]
  const TRUE_TEXT: Text := [116, 114, 117, 101]
  const FALSE_TEXT: Text := [102, 97, 108, 115, 101]

  function Number(n: int): Text {
    if n < 0 then [MINUS] + Digits(-n) else Digits(n)
  }

  function Encode(v: Json): Result<Text, Error>
    decreases Depth(v), 1, 0
  {
    match v
    case Null => Ok(NULL_TEXT)
    case Bool(on) => Ok(if on then TRUE_TEXT else FALSE_TEXT)
    case Int(n) => Ok(Number(n))
    case Float => Err(IeeeFloat)
    case Str(text) => Ok(Quoted(text))
    case List(items) => Wrap(OPEN_LIST, EncodeItems(items, Depth(v)), CLOSE_LIST)
    case Object(members) =>
      if exists i :: 0 <= i < |members| && !HasUtf16(members[i].key) then Err(BadKey)
      else
        SortedDepth(members);
        Wrap(OPEN_OBJECT, EncodeMembers(SortMembers(members), Depth(v)), CLOSE_OBJECT)
    case Alien => Err(UnsupportedType)
  }

  function Wrap(open: nat, inner: Result<Text, Error>, close: nat): Result<Text, Error> {
    match inner
    case Ok(text) => Ok([open] + text + [close])
    case Err(e) => Err(e)
  }

  /** The encodings, in order, joined by commas; the first failure is the result. */
  function EncodeItems(items: seq<Json>, depth: nat): Result<Text, Error>
    requires forall i :: 0 <= i < |items| ==> Depth(items[i]) < depth
    decreases depth, 0, |items|
  {
    if items == [] then Ok([])
    else Joined(Encode(items[0]), |items| == 1, EncodeItems(items[1..], depth))
  }

  function Joined(first: Result<Text, Error>, alone: bool, rest: Result<Text, Error>): Result<Text, Error> {
    if first.Err? then first
    else if alone then first
    else if rest.Err? then rest
    else Ok(first.value + [COMMA] + rest.value)
  }

  function EncodeMembers(members: seq<Member>, depth: nat): Result<Text, Error>
    requires forall i :: 0 <= i < |members| ==> Depth(members[i].value) < depth
    decreases depth, 0, |members|
  {
    if members == [] then Ok([])
    else Joined(Pair(members[0].key, Encode(members[0].value)), |members| == 1, EncodeMembers(members[1..], depth))
  }

  function Pair(key: Text, value: Result<Text, Error>): Result<Text, Error> {
    match value
    case Ok(text) => Ok(Quoted(key) + [COLON] + text)
    case Err(e) => Err(e)
  }

  /** The encoding as UTF-8 bytes; a lone surrogate in a string has none. */
  function CanonicalBytes(v: Json): Option<Text> {
    match Encode(v)
    case Ok(text) => if Scalar(text) then Some(Utf8(text)) else None
    case Err(_) => None
  }
}
