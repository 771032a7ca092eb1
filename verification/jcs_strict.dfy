/** The encoding is the only text the strict decoder reads as its value. */
module JcsStrict {
  import opened Options
  import opened Text
  import opened Jcs
  import opened JcsDecode

  lemma CharIsEscaped(s: Text)
    requires s != [] && ReadChar(s).Got?
    ensures s == Escaped(ReadChar(s).value) + ReadChar(s).rest
  {
    if s[0] == BACKSLASH && s[1] == 117 {
      HexOfValue(s[4]);
      HexOfValue(s[5]);
    }
  }

  lemma HexOfValue(c: nat)
    requires IsHex(c)
    ensures HexValue(c) < 16 && Hex(HexValue(c)) == c
  {}

  /** Whatever is read as a string is that string in its escaped form. */
  lemma {:induction false} StringIsEscaped(s: Text)
    requires ReadString(s).Got?
    ensures s == EscapedAll(ReadString(s).value) + [QUOTE] + ReadString(s).rest
    decreases |s|
  {
    var t, rest := ReadString(s).value, ReadString(s).rest;
    if s[0] == QUOTE {
      assert s == [QUOTE] + s[1..];
    } else {
      var c, more := ReadChar(s).value, ReadChar(s).rest;
      var u := ReadString(more).value;
      CharIsEscaped(s);
      StringIsEscaped(more);
      OneMoreEscaped(c, u, rest);
    }
  }

  lemma OneMoreEscaped(c: nat, u: Text, rest: Text)
    ensures Escaped(c) + (EscapedAll(u) + [QUOTE] + rest) == EscapedAll([c] + u) + [QUOTE] + rest
  {
    assert ([c] + u)[1..] == u;
  }

  lemma QuotedIsRead(s: Text)
    requires s != [] && s[0] == QUOTE && ReadString(s[1..]).Got?
    ensures s == Quoted(ReadString(s[1..]).value) + ReadString(s[1..]).rest
  {
    StringIsEscaped(s[1..]);
    assert s == [QUOTE] + s[1..];
  }

  lemma DigitsArePrinted(s: Text)
    requires ReadDigits(s).Got?
    ensures s == Digits(ReadDigits(s).value) + ReadDigits(s).rest
  {
    var k := DigitsAtStart(s);
    assert s[..k][0] == s[0];
    DigitsOfValue(s[..k]);
  }

  lemma NumberParts(s: Text) returns (negative: bool, n: nat, rest: Text)
    requires ReadNumber(s).Got?
    ensures negative ==> s != [] && s[0] == MINUS && 0 < n && ReadDigits(s[1..]) == Got(n, rest)
    ensures !negative ==> ReadDigits(s) == Got(n, rest)
    ensures ReadNumber(s) == Got(Int(if negative then 0 - n else n), rest)
  {
    negative := s != [] && s[0] == MINUS;
    var digits := if negative then ReadDigits(s[1..]) else ReadDigits(s);
    n, rest := digits.value, digits.rest;
  }

  lemma NumberIsPrinted(s: Text)
    requires ReadNumber(s).Got?
    ensures ReadNumber(s).value.Int? && s == Number(ReadNumber(s).value.n) + ReadNumber(s).rest
  {
    var negative, n, rest := NumberParts(s);
    if negative {
      DigitsArePrinted(s[1..]);
      Signed(n, s, rest);
    } else {
      DigitsArePrinted(s);
    }
  }

  lemma Signed(n: nat, s: Text, rest: Text)
    requires 0 < n && s != [] && s[0] == MINUS && s[1..] == Digits(n) + rest
    ensures s == Number(0 - n) + rest
  {
    assert s == [MINUS] + s[1..];
    assert Number(0 - n) == [MINUS] + Digits(n);
    Regroup([MINUS], Digits(n), rest);
  }

  /** Every object has its members in key order, under keys that have a UTF-16 form. */
  ghost predicate Ordered(v: Json)
    decreases Depth(v)
  {
    match v
    case List(items) => forall i :: 0 <= i < |items| ==> Ordered(items[i])
    case Object(members) =>
      && SortMembers(members) == members
      && forall i :: 0 <= i < |members| ==> HasUtf16(members[i].key) && Ordered(members[i].value)
    case _ => true
  }

  lemma WordsAreRead(s: Text, word: Text)
    requires StartsWith(s, word)
    ensures s == word + s[|word|..]
  {}

  /** The only text: what the strict decoder reads as a value whose members are in order is the encoding of that
      value, followed by what it leaves. */
  lemma {:induction false} OnlyText(s: Text)
    requires ReadValue(s).Got? && Ordered(ReadValue(s).value)
    ensures var v := ReadValue(s).value; Encode(v).Ok? && s == Encode(v).value + ReadValue(s).rest
    decreases |s|, 0
  {
    if StartsWith(s, NULL_TEXT) {
      WordsAreRead(s, NULL_TEXT);
    } else if StartsWith(s, TRUE_TEXT) {
      WordsAreRead(s, TRUE_TEXT);
    } else if StartsWith(s, FALSE_TEXT) {
      WordsAreRead(s, FALSE_TEXT);
    } else if s[0] == QUOTE {
      QuotedIsRead(s);
    } else if s[0] == OPEN_LIST {
      OnlyList(s);
    } else if s[0] == OPEN_OBJECT {
      OnlyObject(s);
    } else {
      NumberIsPrinted(s);
    }
  }

  /** No word begins as a list or an object does. */
  ghost predicate NoWordIn(s: Text) {
    s != [] && !StartsWith(s, NULL_TEXT) && !StartsWith(s, TRUE_TEXT) && !StartsWith(s, FALSE_TEXT)
  }

  lemma ListParts(s: Text) returns (items: seq<Json>, rest: Text)
    requires ReadValue(s).Got? && NoWordIn(s) && s[0] == OPEN_LIST
    ensures ReadValue(s) == Got(List(items), rest)
    ensures if items == [] then s == [OPEN_LIST, CLOSE_LIST] + rest
            else s == [OPEN_LIST] + s[1..] && ReadItems(s[1..]) == Got(items, rest)
  {
    if |s| > 1 && s[1] == CLOSE_LIST {
      items, rest := [], s[2..];
    } else {
      items, rest := ReadItems(s[1..]).value, ReadItems(s[1..]).rest;
      ItemsAreSome(s[1..]);
    }
  }

  lemma ItemsAreSome(s: Text)
    requires ReadItems(s).Got?
    ensures ReadItems(s).value != []
  {}

  lemma EncodedList(items: seq<Json>)
    requires EncodeItems(items, Depth(List(items))).Ok?
    ensures Encode(List(items)) == Ok([OPEN_LIST] + EncodeItems(items, Depth(List(items))).value + [CLOSE_LIST])
  {}

  lemma {:induction false} OnlyList(s: Text)
    requires ReadValue(s).Got? && Ordered(ReadValue(s).value) && NoWordIn(s) && s[0] == OPEN_LIST
    ensures var v := ReadValue(s).value; Encode(v).Ok? && s == Encode(v).value + ReadValue(s).rest
    decreases |s|, -1
  {
    var items, rest := ListParts(s);
    var depth := Depth(List(items));
    if items != [] {
      OnlyItems(s[1..], items, rest, depth);
    }
    EncodedList(items);
    Enclosed(OPEN_LIST, EncodeItems(items, depth).value, CLOSE_LIST, rest);
  }

  lemma Enclosed(open: nat, inner: Text, close: nat, rest: Text)
    ensures [open] + (inner + [close] + rest) == [open] + inner + [close] + rest
    ensures [open, close] + rest == [open] + [] + [close] + rest
  {}

  lemma ItemsParts(s: Text, items: seq<Json>, rest: Text) returns (after: Text)
    requires ReadItems(s) == Got(items, rest)
    ensures items != [] && ReadValue(s) == Got(items[0], after) && |after| < |s|
    ensures if |items| == 1 then after == [CLOSE_LIST] + rest
            else after == [COMMA] + after[1..] && ReadItems(after[1..]) == Got(items[1..], rest)
  {
    after := ReadValue(s).rest;
    if after[0] == COMMA {
      ItemsAreSome(after[1..]);
    }
  }

  lemma EncodedMore(items: seq<Json>, depth: nat)
    requires forall i :: 0 <= i < |items| ==> Depth(items[i]) < depth
    requires items != [] && Encode(items[0]).Ok? && (|items| > 1 ==> EncodeItems(items[1..], depth).Ok?)
    ensures EncodeItems(items, depth)
         == Ok(if |items| == 1 then Encode(items[0]).value
               else Encode(items[0]).value + [COMMA] + EncodeItems(items[1..], depth).value)
  {}

  lemma {:induction false} OnlyItems(s: Text, items: seq<Json>, rest: Text, depth: nat)
    requires ReadItems(s) == Got(items, rest)
    requires forall i :: 0 <= i < |items| ==> Ordered(items[i]) && Depth(items[i]) < depth
    ensures EncodeItems(items, depth).Ok? && s == EncodeItems(items, depth).value + [CLOSE_LIST] + rest
    decreases |s|, 1
  {
    var after := ItemsParts(s, items, rest);
    OnlyText(s);
    if |items| > 1 {
      OnlyItems(after[1..], items[1..], rest, depth);
      Chained(Encode(items[0]).value, EncodeItems(items[1..], depth).value, CLOSE_LIST, rest);
    } else {
      Regroup(Encode(items[0]).value, [CLOSE_LIST], rest);
    }
    EncodedMore(items, depth);
  }

  lemma Chained(first: Text, more: Text, close: nat, rest: Text)
    ensures first + ([COMMA] + (more + [close] + rest)) == first + [COMMA] + more + [close] + rest
  {}

  lemma ObjectParts(s: Text) returns (members: seq<Member>, rest: Text)
    requires ReadValue(s).Got? && NoWordIn(s) && s[0] == OPEN_OBJECT
    ensures ReadValue(s) == Got(Object(members), rest)
    ensures if members == [] then s == [OPEN_OBJECT, CLOSE_OBJECT] + rest
            else s == [OPEN_OBJECT] + s[1..] && ReadMembers(s[1..]) == Got(members, rest)
  {
    if |s| > 1 && s[1] == CLOSE_OBJECT {
      members, rest := [], s[2..];
    } else {
      members, rest := ReadMembers(s[1..]).value, ReadMembers(s[1..]).rest;
      MembersAreSome(s[1..]);
    }
  }

  lemma MembersAreSome(s: Text)
    requires ReadMembers(s).Got?
    ensures ReadMembers(s).value != []
  {}

  lemma EncodedSorted(members: seq<Member>, sorted: seq<Member>)
    requires SortMembers(members) == sorted && forall i :: 0 <= i < |members| ==> HasUtf16(members[i].key)
    requires forall i :: 0 <= i < |sorted| ==> Depth(sorted[i].value) < Depth(Object(members))
    ensures Encode(Object(members)) == Wrap(OPEN_OBJECT, EncodeMembers(sorted, Depth(Object(members))), CLOSE_OBJECT)
  {}

  lemma {:induction false} OnlyObject(s: Text)
    requires ReadValue(s).Got? && Ordered(ReadValue(s).value) && NoWordIn(s) && s[0] == OPEN_OBJECT
    ensures var v := ReadValue(s).value; Encode(v).Ok? && s == Encode(v).value + ReadValue(s).rest
    decreases |s|, -1
  {
    var members, rest := ObjectParts(s);
    var depth := Depth(Object(members));
    if members != [] {
      OnlyMembers(s[1..], members, rest, depth);
    }
    EncodedSorted(members, members);
    Enclosed(OPEN_OBJECT, EncodeMembers(members, depth).value, CLOSE_OBJECT, rest);
  }

  lemma MemberParts(s: Text, m: Member, rest: Text) returns (value: Text)
    requires ReadMember(s) == Got(m, rest)
    ensures s == Quoted(m.key) + [COLON] + value && |value| < |s| && ReadValue(value) == Got(m.value, rest)
  {
    var after := ReadString(s[1..]).rest;
    value := after[1..];
    QuotedIsRead(s);
    assert after == [COLON] + value;
    Regroup(Quoted(m.key), [COLON], value);
  }

  lemma {:induction false} OnlyMember(s: Text, m: Member, rest: Text)
    requires ReadMember(s) == Got(m, rest) && Ordered(m.value)
    ensures Encode(m.value).Ok? && s == Pair(m.key, Encode(m.value)).value + rest
    decreases |s|, 1
  {
    var value := MemberParts(s, m, rest);
    OnlyText(value);
    Regroup(Quoted(m.key) + [COLON], Encode(m.value).value, rest);
  }

  lemma MembersParts(s: Text, members: seq<Member>, rest: Text) returns (after: Text)
    requires ReadMembers(s) == Got(members, rest)
    ensures members != [] && ReadMember(s) == Got(members[0], after) && |after| < |s|
    ensures if |members| == 1 then after == [CLOSE_OBJECT] + rest
            else after == [COMMA] + after[1..] && ReadMembers(after[1..]) == Got(members[1..], rest)
  {
    after := ReadMember(s).rest;
    if after[0] == COMMA {
      MembersAreSome(after[1..]);
    }
  }

  lemma EncodedMoreMembers(members: seq<Member>, depth: nat)
    requires forall i :: 0 <= i < |members| ==> Depth(members[i].value) < depth
    requires members != [] && Encode(members[0].value).Ok? && (|members| > 1 ==> EncodeMembers(members[1..], depth).Ok?)
    ensures var first := Pair(members[0].key, Encode(members[0].value)).value;
            EncodeMembers(members, depth)
            == Ok(if |members| == 1 then first else first + [COMMA] + EncodeMembers(members[1..], depth).value)
  {}

  lemma {:induction false} OnlyMembers(s: Text, members: seq<Member>, rest: Text, depth: nat)
    requires ReadMembers(s) == Got(members, rest)
    requires forall i :: 0 <= i < |members| ==> Ordered(members[i].value) && Depth(members[i].value) < depth
    ensures EncodeMembers(members, depth).Ok? && s == EncodeMembers(members, depth).value + [CLOSE_OBJECT] + rest
    decreases |s|, 2
  {
    var after := MembersParts(s, members, rest);
    OnlyMember(s, members[0], after);
    var first := Pair(members[0].key, Encode(members[0].value)).value;
    if |members| > 1 {
      OnlyMembers(after[1..], members[1..], rest, depth);
      Chained(first, EncodeMembers(members[1..], depth).value, CLOSE_OBJECT, rest);
    } else {
      Regroup(first, [CLOSE_OBJECT], rest);
    }
    EncodedMoreMembers(members, depth);
  }

  // ---- the marks, by their characters -------------------------------------------------------------------------------

  function Codes(s: string): (t: Text)
    ensures |t| == |s| && forall i :: 0 <= i < |s| ==> t[i] == s[i] as int
  {
    seq(|s|, i requires 0 <= i < |s| => s[i] as int)
  }

  lemma Marks()
    ensures [QUOTE, COMMA, MINUS, COLON, OPEN_LIST, BACKSLASH, CLOSE_LIST, OPEN_OBJECT, CLOSE_OBJECT] == Codes("\",-:[\\]{}")
    ensures NULL_TEXT == Codes("null") && TRUE_TEXT == Codes("true") && FALSE_TEXT == Codes("false")
  {}
}
