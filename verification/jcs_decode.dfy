/** A strict reference decoder, which reads only what RFC 8785 lets a canonical text hold, and the round trip. */
module JcsDecode {
  import opened Text
  import opened Jcs

  /** What was read from the start of a text, and what follows it. */
  datatype Read<+T> = Fail | Got(value: T, rest: Text)

  // ---- the decoder ------------------------------------------------------------------------------------------

  predicate IsHex(c: nat) {
    IsDigit(c) || 97 <= c <= 102
  }

  function HexValue(c: nat): nat
    requires IsHex(c)
  {
    if c <= ZERO + 9 then c - ZERO else c - 87
  }

  /** The control characters that have a short form, by its letter. */
  function ShortForm(letter: nat): (c: nat) {
    if letter == 'b' as int then 0x08
    else if letter == 't' as int then 0x09
    else if letter == 'n' as int then 0x0A
    else if letter == 'f' as int then 0x0C
    else if letter == 'r' as int then 0x0D
    else letter
  }

  predicate HasShortForm(c: nat) {
    0x08 <= c <= 0x0A || 0x0C <= c <= 0x0D
  }

  /** One character inside quotes, in the one form section 3.2.2.2 of RFC 8785 allows it: a control character by
      its short form if it has one and else as four lower-case hex digits, the quote and the backslash behind a
      backslash, and everything else as itself. */
  function ReadChar(s: Text): (r: Read<nat>)
    requires s != []
    ensures r.Got? ==> |r.rest| < |s|
  {
    if s[0] < 0x20 || s[0] == '"' as int then Fail
    else if s[0] != '\\' as int then Got(s[0], s[1..])
    else if |s| < 2 then Fail
    else if s[1] == '"' as int || s[1] == '\\' as int then Got(s[1], s[2..])
    else if ShortForm(s[1]) != s[1] then Got(ShortForm(s[1]), s[2..])
    else if s[1] == 'u' as int && |s| >= 6 && s[2] == s[3] == '0' as int && IsHex(s[4]) && IsHex(s[5]) then
      var c := HexValue(s[4]) * 16 + HexValue(s[5]);
      if c < 0x20 && !HasShortForm(c) then Got(c, s[6..]) else Fail
    else Fail
  }

  /** The rest of a string, after its opening quote. */
  function ReadString(s: Text): (r: Read<Text>)
    ensures r.Got? ==> |r.rest| < |s|
    decreases |s|
  {
    if s == [] then Fail
    else if s[0] == QUOTE then Got([], s[1..])
    else
      match ReadChar(s)
      case Fail => Fail
      case Got(c, rest) =>
        match ReadString(rest)
        case Fail => Fail
        case Got(t, rest') => Got([c] + t, rest')
  }

  /** A natural number without leading zeros. */
  function ReadDigits(s: Text): (r: Read<nat>)
    ensures r.Got? ==> |r.rest| < |s|
  {
    var k := DigitsAtStart(s);
    if k == 0 || (k > 1 && s[0] == '0' as int) then Fail else Got(ValueOf(s[..k]), s[k..])
  }

  /** There is no negative zero. */
  function ReadNumber(s: Text): (r: Read<Json>)
    ensures r.Got? ==> |r.rest| < |s|
  {
    if s != [] && s[0] == '-' as int then
      match ReadDigits(s[1..])
      case Fail => Fail
      case Got(n, rest) => if n == 0 then Fail else Got(Int(0 - n), rest)
    else
      match ReadDigits(s) case Fail => Fail case Got(n, rest) => Got(Int(n), rest)
  }

  function ReadValue(s: Text): (r: Read<Json>)
    ensures r.Got? ==> |r.rest| < |s|
    decreases |s|, 0
  {
    if s == [] then Fail
    else if StartsWith(s, NULL_TEXT) then Got(Null, s[|NULL_TEXT|..])
    else if StartsWith(s, TRUE_TEXT) then Got(Bool(true), s[|TRUE_TEXT|..])
    else if StartsWith(s, FALSE_TEXT) then Got(Bool(false), s[|FALSE_TEXT|..])
    else if s[0] == QUOTE then
      match ReadString(s[1..]) case Fail => Fail case Got(t, rest) => Got(Str(t), rest)
    else if s[0] == OPEN_LIST then
      if |s| > 1 && s[1] == CLOSE_LIST then Got(List([]), s[2..])
      else match ReadItems(s[1..]) case Fail => Fail case Got(items, rest) => Got(List(items), rest)
    else if s[0] == OPEN_OBJECT then
      if |s| > 1 && s[1] == CLOSE_OBJECT then Got(Object([]), s[2..])
      else match ReadMembers(s[1..]) case Fail => Fail case Got(members, rest) => Got(Object(members), rest)
    else ReadNumber(s)
  }

  /** One or more items, up to the closing bracket. */
  function ReadItems(s: Text): (r: Read<seq<Json>>)
    ensures r.Got? ==> |r.rest| < |s|
    decreases |s|, 1
  {
    match ReadValue(s)
    case Fail => Fail
    case Got(v, rest) =>
      if rest == [] then Fail
      else if rest[0] == CLOSE_LIST then Got([v], rest[1..])
      else if rest[0] == COMMA then
        match ReadItems(rest[1..]) case Fail => Fail case Got(more, rest') => Got([v] + more, rest')
      else Fail
  }

  function ReadMember(s: Text): (r: Read<Member>)
    ensures r.Got? ==> |r.rest| < |s|
    decreases |s|, 1
  {
    if s == [] || s[0] != QUOTE then Fail
    else
      match ReadString(s[1..])
      case Fail => Fail
      case Got(key, rest) =>
        if rest == [] || rest[0] != COLON then Fail
        else
          match ReadValue(rest[1..]) case Fail => Fail case Got(v, rest') => Got(Member(key, v), rest')
  }

  function ReadMembers(s: Text): (r: Read<seq<Member>>)
    ensures r.Got? ==> |r.rest| < |s|
    decreases |s|, 2
  {
    match ReadMember(s)
    case Fail => Fail
    case Got(m, rest) =>
      if rest == [] then Fail
      else if rest[0] == CLOSE_OBJECT then Got([m], rest[1..])
      else if rest[0] == COMMA then
        match ReadMembers(rest[1..]) case Fail => Fail case Got(more, rest') => Got([m] + more, rest')
      else Fail
  }

  // ---- the value that comes back ------------------------------------------------------------------------------

  /** The same value with the members of every object in key order. */
  function Canon(v: Json): (c: Json)
    decreases Depth(v), 1, 0
  {
    match v
    case List(items) => List(CanonItems(items, Depth(v)))
    case Object(members) =>
      SortedDepth(members);
      Object(CanonMembers(SortMembers(members), Depth(v)))
    case _ => v
  }

  function CanonItems(items: seq<Json>, depth: nat): (c: seq<Json>)
    requires forall i :: 0 <= i < |items| ==> Depth(items[i]) < depth
    ensures |c| == |items|
    decreases depth, 0, |items|
  {
    if items == [] then [] else [Canon(items[0])] + CanonItems(items[1..], depth)
  }

  function CanonMembers(members: seq<Member>, depth: nat): (c: seq<Member>)
    requires forall i :: 0 <= i < |members| ==> Depth(members[i].value) < depth
    ensures |c| == |members|
    decreases depth, 0, |members|
  {
    if members == [] then []
    else [Member(members[0].key, Canon(members[0].value))] + CanonMembers(members[1..], depth)
  }

  // ---- the round trip -----------------------------------------------------------------------------------------------

  lemma HexRoundTrip(d: nat)
    requires d < 16
    ensures IsHex(Hex(d)) && HexValue(Hex(d)) == d
  {
  }

  lemma CharRoundTrip(c: nat, tail: Text)
    ensures ReadChar(Escaped(c) + tail) == Got(c, tail)
    ensures (Escaped(c) + tail)[0] != QUOTE
  {
    var s := Escaped(c) + tail;
    assert s[|Escaped(c)|..] == tail;
    if c < 0x20 {
      HexRoundTrip(c / 16);
      HexRoundTrip(c % 16);
    }
  }

  lemma QuoteEnds(tail: Text)
    ensures ReadString([QUOTE] + tail) == Got([], tail)
  {
    assert ([QUOTE] + tail)[1..] == tail;
  }

  lemma OneMoreChar(c: nat, rest: Text, t: Text, tail: Text)
    requires ReadString(rest) == Got(t, tail)
    ensures ReadString(Escaped(c) + rest) == Got([c] + t, tail)
  {
    CharRoundTrip(c, rest);
    ReadStringStep(Escaped(c) + rest, c, rest, t, tail);
  }

  lemma {:induction false} StringRoundTrip(t: Text, tail: Text)
    ensures ReadString(EscapedAll(t) + [QUOTE] + tail) == Got(t, tail)
  {
    if t == [] {
      QuoteEnds(tail);
      assert EscapedAll(t) + [QUOTE] + tail == [QUOTE] + tail;
    } else {
      var rest := EscapedAll(t[1..]) + [QUOTE] + tail;
      StringRoundTrip(t[1..], tail);
      OneMoreChar(t[0], rest, t[1..], tail);
      assert EscapedAll(t) + [QUOTE] + tail == Escaped(t[0]) + rest;
      assert [t[0]] + t[1..] == t;
    }
  }

  lemma ReadStringStep(s: Text, c: nat, rest: Text, t: Text, tail: Text)
    requires s != [] && s[0] != QUOTE && ReadChar(s) == Got(c, rest) && ReadString(rest) == Got(t, tail)
    ensures ReadString(s) == Got([c] + t, tail)
  {
  }

  lemma QuotedRoundTrip(t: Text, tail: Text)
    ensures (Quoted(t) + tail)[0] == QUOTE
    ensures ReadString((Quoted(t) + tail)[1..]) == Got(t, tail)
  {
    StringRoundTrip(t, tail);
    assert (Quoted(t) + tail)[1..] == EscapedAll(t) + [QUOTE] + tail;
  }

  lemma DigitsRoundTrip(n: nat, tail: Text)
    requires NoDigitFirst(tail)
    ensures ReadDigits(Digits(n) + tail) == Got(n, tail)
  {
    var s := Digits(n) + tail;
    DigitsEndThere(Digits(n), tail);
    ValueOfDigits(n);
    NoLeadingZero(n);
    assert s[..|Digits(n)|] == Digits(n) && s[|Digits(n)|..] == tail && s[0] == Digits(n)[0];
  }

  lemma NumberRoundTrip(n: int, tail: Text)
    requires NoDigitFirst(tail)
    ensures ReadNumber(Number(n) + tail) == Got(Int(n), tail)
    ensures IsDigit(Number(n)[0]) || Number(n)[0] == MINUS
  {
    if n < 0 {
      NegativeRoundTrip(-n, tail);
    } else {
      NaturalRoundTrip(n, tail);
    }
  }

  lemma NegativeRoundTrip(n: nat, tail: Text)
    requires NoDigitFirst(tail) && 0 < n
    ensures ReadNumber([MINUS] + Digits(n) + tail) == Got(Int(0 - n), tail)
  {
    var d := Digits(n);
    DigitsRoundTrip(n, tail);
    MinusFirst(d, tail);
  }

  lemma MinusFirst(d: Text, tail: Text)
    ensures ([MINUS] + d + tail)[0] == MINUS && ([MINUS] + d + tail)[1..] == d + tail
  {
  }

  lemma NaturalRoundTrip(n: nat, tail: Text)
    requires NoDigitFirst(tail)
    ensures ReadNumber(Digits(n) + tail) == Got(Int(n), tail)
    ensures IsDigit(Digits(n)[0])
  {
    var d := Digits(n);
    DigitsRoundTrip(n, tail);
    assert (d + tail)[0] == d[0];
  }

  /** No encoding begins with a closing bracket. */
  lemma NeverClosesFirst(v: Json)
    requires Encode(v).Ok?
    ensures Encode(v).value != []
    ensures Encode(v).value[0] != CLOSE_LIST && Encode(v).value[0] != CLOSE_OBJECT
  {
    if v.Int? {
      NumberRoundTrip(v.n, []);
    }
  }

  lemma WordRoundTrip(tail: Text)
    ensures ReadValue(NULL_TEXT + tail) == Got(Null, tail)
    ensures ReadValue(TRUE_TEXT + tail) == Got(Bool(true), tail)
    ensures ReadValue(FALSE_TEXT + tail) == Got(Bool(false), tail)
  {
    assert (NULL_TEXT + tail)[..4] == NULL_TEXT && (NULL_TEXT + tail)[4..] == tail;
    assert (TRUE_TEXT + tail)[..4] == TRUE_TEXT && (TRUE_TEXT + tail)[4..] == tail;
    assert (FALSE_TEXT + tail)[..5] == FALSE_TEXT && (FALSE_TEXT + tail)[5..] == tail;
    assert (TRUE_TEXT + tail)[..4][0] != NULL_TEXT[0];
    assert (FALSE_TEXT + tail)[..4][0] != NULL_TEXT[0] && (FALSE_TEXT + tail)[..4][0] != TRUE_TEXT[0];
  }

  /** A text beginning with none of the three words is read by its first character. */
  lemma NoWord(s: Text)
    requires s != [] && s[0] != NULL_TEXT[0] && s[0] != TRUE_TEXT[0] && s[0] != FALSE_TEXT[0]
    ensures !StartsWith(s, NULL_TEXT) && !StartsWith(s, TRUE_TEXT) && !StartsWith(s, FALSE_TEXT)
  {
    if |s| >= 4 {
      assert s[..4][0] == s[0];
    }
    if |s| >= 5 {
      assert s[..5][0] == s[0];
    }
  }

  lemma IntRoundTrip(n: int, tail: Text)
    requires NoDigitFirst(tail)
    ensures ReadValue(Number(n) + tail) == Got(Int(n), tail)
  {
    NumberRoundTrip(n, tail);
    assert (Number(n) + tail)[0] == Number(n)[0];
    NoWord(Number(n) + tail);
  }

  lemma StrRoundTrip(t: Text, tail: Text)
    ensures ReadValue(Quoted(t) + tail) == Got(Str(t), tail)
  {
    QuotedRoundTrip(t, tail);
    NoWord(Quoted(t) + tail);
  }

  /** Decoding what was encoded returns the value, its objects in key order, and whatever follows; what
      follows must not continue a number. */
  lemma {:induction false} RoundTrip(v: Json, tail: Text)
    requires Encode(v).Ok? && NoDigitFirst(tail)
    ensures ReadValue(Encode(v).value + tail) == Got(Canon(v), tail)
    decreases Depth(v), 2, 0
  {
    match v {
      case Null => WordRoundTrip(tail);
      case Bool(_) => WordRoundTrip(tail);
      case Int(n) => IntRoundTrip(n, tail);
      case Str(t) => StrRoundTrip(t, tail);
      case List(items) => ListRoundTrip(items, tail);
      case Object(members) => ObjectRoundTrip(members, tail);
      case Float => assert false;
      case Alien => assert false;
    }
  }

  lemma {:induction false} ListRoundTrip(items: seq<Json>, tail: Text)
    requires Encode(List(items)).Ok? && NoDigitFirst(tail)
    ensures ReadValue(Encode(List(items)).value + tail) == Got(Canon(List(items)), tail)
    decreases Depth(List(items)), 1, 0
  {
    var v := List(items);
    var inner := EncodeItems(items, Depth(v)).value;
    var s := Encode(v).value + tail;
    var rest := inner + [CLOSE_LIST] + tail;
    assert s == [OPEN_LIST] + rest;
    assert s[1..] == rest;
    NoWord(s);
    if items == [] {
      assert rest[1..] == tail && s[2..] == tail;
    } else {
      ItemsBegin(items, Depth(v));
      assert s[1] == inner[0];
      ItemsRoundTrip(items, Depth(v), tail);
    }
  }

  lemma ItemsBegin(items: seq<Json>, depth: nat)
    requires forall i :: 0 <= i < |items| ==> Depth(items[i]) < depth
    requires items != [] && EncodeItems(items, depth).Ok?
    ensures EncodeItems(items, depth).value != [] && EncodeItems(items, depth).value[0] != CLOSE_LIST
  {
    NeverClosesFirst(items[0]);
  }

  lemma EncodedItems(items: seq<Json>, depth: nat)
    requires forall i :: 0 <= i < |items| ==> Depth(items[i]) < depth
    requires items != [] && EncodeItems(items, depth).Ok?
    ensures Encode(items[0]).Ok? && EncodeItems(items[1..], depth).Ok?
    ensures EncodeItems(items, depth).value
         == if |items| == 1 then Encode(items[0]).value
            else Encode(items[0]).value + [COMMA] + EncodeItems(items[1..], depth).value
  {
  }

  lemma Regroup5(a: Text, b: Text, c: Text, d: Text, e: Text)
    ensures a + b + c + d + e == a + (b + (c + d + e))
  {
  }

  lemma LastItem(first: Text, v: Json, tail: Text)
    requires ReadValue(first + ([CLOSE_LIST] + tail)) == Got(v, [CLOSE_LIST] + tail)
    ensures ReadItems(first + [CLOSE_LIST] + tail) == Got([v], tail)
  {
    Regroup(first, [CLOSE_LIST], tail);
    assert ([CLOSE_LIST] + tail)[1..] == tail;
  }

  lemma NextItem(first: Text, v: Json, text: Text, items: seq<Json>, tail: Text)
    requires ReadValue(first + ([COMMA] + (text + [CLOSE_LIST] + tail))) == Got(v, [COMMA] + (text + [CLOSE_LIST] + tail))
    requires ReadItems(text + [CLOSE_LIST] + tail) == Got(items, tail)
    ensures ReadItems(first + [COMMA] + text + [CLOSE_LIST] + tail) == Got([v] + items, tail)
  {
    Regroup5(first, [COMMA], text, [CLOSE_LIST], tail);
    ItemThenItems(first + ([COMMA] + (text + [CLOSE_LIST] + tail)), v, text + [CLOSE_LIST] + tail, items, tail);
  }

  lemma ItemThenItems(s: Text, v: Json, more: Text, items: seq<Json>, tail: Text)
    requires ReadValue(s) == Got(v, [COMMA] + more) && ReadItems(more) == Got(items, tail)
    ensures ReadItems(s) == Got([v] + items, tail)
  {
    assert ([COMMA] + more)[1..] == more;
  }

  lemma {:induction false} ItemsRoundTrip(items: seq<Json>, depth: nat, tail: Text)
    requires forall i :: 0 <= i < |items| ==> Depth(items[i]) < depth
    requires items != [] && EncodeItems(items, depth).Ok?
    ensures ReadItems(EncodeItems(items, depth).value + [CLOSE_LIST] + tail) == Got(CanonItems(items, depth), tail)
    decreases depth, 0, |items|
  {
    EncodedItems(items, depth);
    var first := Encode(items[0]).value;
    if |items| == 1 {
      RoundTrip(items[0], [CLOSE_LIST] + tail);
      LastItem(first, Canon(items[0]), tail);
      assert CanonItems(items, depth) == [Canon(items[0])];
    } else {
      var text := EncodeItems(items[1..], depth).value;
      RoundTrip(items[0], [COMMA] + (text + [CLOSE_LIST] + tail));
      ItemsRoundTrip(items[1..], depth, tail);
      NextItem(first, Canon(items[0]), text, CanonItems(items[1..], depth), tail);
    }
  }

  lemma ReadObject(inner: Text, members: seq<Member>, tail: Text)
    requires inner != [] && inner[0] == QUOTE
    requires ReadMembers(inner + [CLOSE_OBJECT] + tail) == Got(members, tail)
    ensures ReadValue([OPEN_OBJECT] + inner + [CLOSE_OBJECT] + tail) == Got(Object(members), tail)
  {
    var rest := inner + [CLOSE_OBJECT] + tail;
    var s := [OPEN_OBJECT] + inner + [CLOSE_OBJECT] + tail;
    assert s == [OPEN_OBJECT] + rest;
    assert rest[0] == inner[0];
    assert s[1..] == rest && s[1] == rest[0];
    NoWord(s);
  }

  lemma ReadEmptyObject(tail: Text)
    ensures ReadValue([OPEN_OBJECT, CLOSE_OBJECT] + tail) == Got(Object([]), tail)
  {
    var s := [OPEN_OBJECT, CLOSE_OBJECT] + tail;
    NoWord(s);
    assert s[2..] == tail;
  }

  lemma {:induction false} ObjectRoundTrip(members: seq<Member>, tail: Text)
    requires Encode(Object(members)).Ok? && NoDigitFirst(tail)
    ensures ReadValue(Encode(Object(members)).value + tail) == Got(Canon(Object(members)), tail)
    decreases Depth(Object(members)), 1, 0
  {
    SortedDepth(members);
    SortedRoundTrip(SortMembers(members), Depth(Object(members)), tail);
  }

  lemma {:induction false} SortedRoundTrip(sorted: seq<Member>, depth: nat, tail: Text)
    requires forall i :: 0 <= i < |sorted| ==> Depth(sorted[i].value) < depth
    requires EncodeMembers(sorted, depth).Ok?
    ensures ReadValue([OPEN_OBJECT] + EncodeMembers(sorted, depth).value + [CLOSE_OBJECT] + tail)
         == Got(Object(CanonMembers(sorted, depth)), tail)
    decreases depth, 0, |sorted| + 1
  {
    if sorted == [] {
      ReadEmptyObject(tail);
      assert [OPEN_OBJECT] + [] + [CLOSE_OBJECT] == [OPEN_OBJECT, CLOSE_OBJECT];
    } else {
      EncodedMembers(sorted, depth);
      MembersRoundTrip(sorted, depth, tail);
      ReadObject(EncodeMembers(sorted, depth).value, CanonMembers(sorted, depth), tail);
    }
  }

  lemma ReadMemberStep(s: Text, key: Text, after: Text, v: Json, tail: Text)
    requires s != [] && s[0] == QUOTE && ReadString(s[1..]) == Got(key, [COLON] + after) && ReadValue(after) == Got(v, tail)
    ensures ReadMember(s) == Got(Member(key, v), tail)
  {
    assert ([COLON] + after)[1..] == after;
  }

  lemma MemberText(key: Text, text: Text, v: Json, tail: Text)
    requires ReadValue(text + tail) == Got(v, tail)
    ensures ReadMember(Quoted(key) + [COLON] + text + tail) == Got(Member(key, v), tail)
  {
    var after := text + tail;
    QuotedRoundTrip(key, [COLON] + after);
    assert Quoted(key) + [COLON] + text + tail == Quoted(key) + ([COLON] + after);
    ReadMemberStep(Quoted(key) + ([COLON] + after), key, after, v, tail);
  }

  lemma {:induction false} MemberRoundTrip(m: Member, tail: Text)
    requires Encode(m.value).Ok? && NoDigitFirst(tail)
    ensures ReadMember(Pair(m.key, Encode(m.value)).value + tail) == Got(Member(m.key, Canon(m.value)), tail)
    decreases Depth(m.value), 3, 0
  {
    RoundTrip(m.value, tail);
    MemberText(m.key, Encode(m.value).value, Canon(m.value), tail);
  }

  lemma EncodedMembers(members: seq<Member>, depth: nat)
    requires forall i :: 0 <= i < |members| ==> Depth(members[i].value) < depth
    requires members != [] && EncodeMembers(members, depth).Ok?
    ensures Encode(members[0].value).Ok? && EncodeMembers(members[1..], depth).Ok?
    ensures EncodeMembers(members, depth).value
         == if |members| == 1 then Pair(members[0].key, Encode(members[0].value)).value
            else Pair(members[0].key, Encode(members[0].value)).value + [COMMA] + EncodeMembers(members[1..], depth).value
    ensures EncodeMembers(members, depth).value != [] && EncodeMembers(members, depth).value[0] == QUOTE
  {
  }

  lemma LastMember(first: Text, m: Member, tail: Text)
    requires ReadMember(first + ([CLOSE_OBJECT] + tail)) == Got(m, [CLOSE_OBJECT] + tail)
    ensures ReadMembers(first + [CLOSE_OBJECT] + tail) == Got([m], tail)
  {
    Regroup(first, [CLOSE_OBJECT], tail);
    assert ([CLOSE_OBJECT] + tail)[1..] == tail;
  }

  lemma NextMember(first: Text, m: Member, text: Text, members: seq<Member>, tail: Text)
    requires ReadMember(first + ([COMMA] + (text + [CLOSE_OBJECT] + tail))) == Got(m, [COMMA] + (text + [CLOSE_OBJECT] + tail))
    requires ReadMembers(text + [CLOSE_OBJECT] + tail) == Got(members, tail)
    ensures ReadMembers(first + [COMMA] + text + [CLOSE_OBJECT] + tail) == Got([m] + members, tail)
  {
    Regroup5(first, [COMMA], text, [CLOSE_OBJECT], tail);
    MemberThenMembers(first + ([COMMA] + (text + [CLOSE_OBJECT] + tail)), m, text + [CLOSE_OBJECT] + tail, members, tail);
  }

  lemma MemberThenMembers(s: Text, m: Member, more: Text, members: seq<Member>, tail: Text)
    requires ReadMember(s) == Got(m, [COMMA] + more) && ReadMembers(more) == Got(members, tail)
    ensures ReadMembers(s) == Got([m] + members, tail)
  {
    assert ([COMMA] + more)[1..] == more;
  }

  lemma {:induction false} MembersRoundTrip(members: seq<Member>, depth: nat, tail: Text)
    requires forall i :: 0 <= i < |members| ==> Depth(members[i].value) < depth
    requires members != [] && EncodeMembers(members, depth).Ok?
    ensures ReadMembers(EncodeMembers(members, depth).value + [CLOSE_OBJECT] + tail) == Got(CanonMembers(members, depth), tail)
    decreases depth, 0, |members|
  {
    EncodedMembers(members, depth);
    var m := members[0];
    var canon := Member(m.key, Canon(m.value));
    var first := Pair(m.key, Encode(m.value)).value;
    if |members| == 1 {
      MemberRoundTrip(m, [CLOSE_OBJECT] + tail);
      LastMember(first, canon, tail);
      assert CanonMembers(members, depth) == [canon];
    } else {
      var text := EncodeMembers(members[1..], depth).value;
      MemberRoundTrip(m, [COMMA] + (text + [CLOSE_OBJECT] + tail));
      MembersRoundTrip(members[1..], depth, tail);
      NextMember(first, canon, text, CanonMembers(members[1..], depth), tail);
    }
  }
}
