/** Text as code points: decimal numbers, lexicographic order, and the two Unicode encodings. */
module Text {
  import opened Options

  /** Code points (or code units, or bytes), as numbers. */
  type Text = seq<nat>

  // ---- decimal numbers --------------------------------------------------------------------------------------

  const ZERO := 48

  predicate IsDigit(c: nat) {
    ZERO <= c <= ZERO + 9
  }

  predicate AllDigits(s: Text) {
    forall i :: 0 <= i < |s| ==> IsDigit(s[i])
  }

  /** The decimal digits of a number, without leading zeros. */
  function Digits(n: nat): (s: Text)
    ensures s != [] && AllDigits(s)
  {
    if n < 10 then [ZERO + n] else Digits(n / 10) + [ZERO + n % 10]
  }

  /** The number a digit sequence stands for; leading zeros are allowed. */
  function ValueOf(s: Text): nat
    requires AllDigits(s)
  {
    if s == [] then 0 else ValueOf(s[..|s| - 1]) * 10 + (s[|s| - 1] - ZERO)
  }

  lemma {:induction false} ValueOfDigits(n: nat)
    ensures ValueOf(Digits(n)) == n
  {
    if n >= 10 {
      ValueOfDigits(n / 10);
    } else {
      assert [ZERO + n][..0] == [];
    }
  }

  lemma NoLeadingZero(n: nat)
    ensures Digits(n)[0] == ZERO ==> |Digits(n)| == 1
  {
    if 0 < n {
      ZeroStandsAlone(n);
    }
  }

  /** A number of more than zero does not begin with a zero. */
  lemma {:induction false} ZeroStandsAlone(n: nat)
    requires 0 < n
    ensures Digits(n)[0] != ZERO
  {
    if n >= 10 {
      ZeroStandsAlone(n / 10);
    }
  }

  /** Digits without a leading zero are the decimal form of the number they stand for. */
  lemma {:induction false} DigitsOfValue(s: Text)
    requires s != [] && AllDigits(s) && (s[0] == ZERO ==> |s| == 1)
    ensures Digits(ValueOf(s)) == s
  {
    var last := |s| - 1;
    if last == 0 {
      assert s[..0] == [];
    } else {
      DigitsOfValue(s[..last]);
      ValueIsPositive(s[..last]);
      assert s == s[..last] + [s[last]];
    }
  }

  lemma {:induction false} ValueIsPositive(s: Text)
    requires s != [] && AllDigits(s) && s[0] != ZERO
    ensures 0 < ValueOf(s)
  {
    if |s| > 1 {
      ValueIsPositive(s[..|s| - 1]);
    }
  }

  /** The longest run of digits at the start. */
  function DigitsAtStart(s: Text): (k: nat)
    ensures k <= |s| && AllDigits(s[..k]) && (k == |s| || !IsDigit(s[k]))
  {
    if s == [] || !IsDigit(s[0]) then 0
    else
      var k := DigitsAtStart(s[1..]);
      assert s[..k + 1] == [s[0]] + s[1..][..k];
      k + 1
  }

  ghost predicate NoDigitFirst(s: Text) {
    s == [] || !IsDigit(s[0])
  }

  lemma {:induction false} DigitsEndThere(d: Text, tail: Text)
    requires AllDigits(d) && NoDigitFirst(tail)
    ensures DigitsAtStart(d + tail) == |d|
  {
    if d == [] {
      assert d + tail == tail;
    } else {
      DigitsEndThere(d[1..], tail);
      assert (d + tail)[1..] == d[1..] + tail;
    }
  }

  // ---- lexicographic order ------------------------------------------------------------------------------------

  predicate LexLess(a: Text, b: Text) {
    b != [] && (a == [] || a[0] < b[0] || (a[0] == b[0] && LexLess(a[1..], b[1..])))
  }

  lemma {:induction false} LexIsTotal(a: Text, b: Text)
    ensures a == b || LexLess(a, b) || LexLess(b, a)
    ensures !LexLess(a, a)
    ensures !(LexLess(a, b) && LexLess(b, a))
  {
    if a != [] {
      LexIsTotal(a[1..], if b == [] then [] else b[1..]);
      if b != [] && a[0] == b[0] && a[1..] == b[1..] {
        assert a == [a[0]] + a[1..] && b == [b[0]] + b[1..];
      }
    }
  }

  lemma {:induction false} LexTrans(a: Text, b: Text, c: Text)
    requires LexLess(a, b) && LexLess(b, c)
    ensures LexLess(a, c)
  {
    if a != [] && a[0] == b[0] && b[0] == c[0] {
      LexTrans(a[1..], b[1..], c[1..]);
    }
  }

  // ---- UTF-16, big-endian -----------------------------------------------------------------------------------------

  predicate IsSurrogate(c: nat) {
    0xD800 <= c < 0xE000
  }

  /** Every element is a code point that can be encoded. */
  predicate Scalar(s: Text) {
    forall i :: 0 <= i < |s| ==> s[i] < 0x110000 && !IsSurrogate(s[i])
  }

  function UnitsOf(c: nat): (u: Text)
    ensures u != []
  {
    if c < 0x10000 then [c] else [0xD800 + (c - 0x10000) / 0x400, 0xDC00 + (c - 0x10000) % 0x400]
  }

  /** What RFC 2781 asks: a code point of the basic plane is its own unit, and a higher one a high and a low
      surrogate with ten bits each. */
  lemma UnitsOfTells(c: nat)
    requires c < 0x110000
    ensures c < 0x10000 ==> UnitsOf(c) == [c]
    ensures 0x10000 <= c ==>
              var u := UnitsOf(c);
              && |u| == 2 && 0xD800 <= u[0] < 0xDC00 <= u[1] < 0xE000
              && 0x10000 + (u[0] - 0xD800) * 0x400 + (u[1] - 0xDC00) == c
  {}

  function Units(s: Text): Text {
    if s == [] then [] else UnitsOf(s[0]) + Units(s[1..])
  }

  ghost predicate Below(s: Text, bound: nat) {
    forall i :: 0 <= i < |s| ==> s[i] < bound
  }

  lemma {:induction false} UnitsAreUnits(s: Text)
    requires Scalar(s)
    ensures Below(Units(s), 0x10000)
  {
    if s != [] {
      UnitsAreUnits(s[1..]);
    }
  }

  /** Distinct texts have distinct code units. */
  lemma {:induction false} UnitsAreInjective(a: Text, b: Text)
    requires Scalar(a) && Scalar(b) && Units(a) == Units(b)
    ensures a == b
  {
    if a != [] && b != [] {
      var u, v := Units(a), Units(b);
      assert u[0] == UnitsOf(a[0])[0] && v[0] == UnitsOf(b[0])[0];
      FirstUnitTells(a[0], b[0]);
      assert |UnitsOf(a[0])| == |UnitsOf(b[0])|;
      if a[0] >= 0x10000 {
        assert u[1] == UnitsOf(a[0])[1] && v[1] == UnitsOf(b[0])[1];
        PairTells(a[0], b[0]);
      }
      assert u[|UnitsOf(a[0])|..] == Units(a[1..]) && v[|UnitsOf(b[0])|..] == Units(b[1..]);
      UnitsAreInjective(a[1..], b[1..]);
      assert a == [a[0]] + a[1..] && b == [b[0]] + b[1..];
    }
  }

  lemma FirstUnitTells(c: nat, d: nat)
    requires c < 0x110000 && d < 0x110000 && !IsSurrogate(c) && !IsSurrogate(d)
    requires UnitsOf(c)[0] == UnitsOf(d)[0]
    ensures c < 0x10000 <==> d < 0x10000
    ensures c < 0x10000 ==> c == d
  {
  }

  lemma PairTells(c: nat, d: nat)
    requires 0x10000 <= c && 0x10000 <= d && UnitsOf(c) == UnitsOf(d)
    ensures c == d
  {
    var u, v := UnitsOf(c), UnitsOf(d);
    assert u[0] == v[0] && u[1] == v[1];
  }

  /** Each unit, high byte first. */
  function BytesOf(units: Text): Text {
    if units == [] then [] else [units[0] / 256, units[0] % 256] + BytesOf(units[1..])
  }

  function Utf16Be(s: Text): Text {
    BytesOf(Units(s))
  }

  /** Comparing the bytes compares the code units. */
  lemma {:induction false} BytesOrderIsUnitOrder(u: Text, v: Text)
    ensures LexLess(BytesOf(u), BytesOf(v)) <==> LexLess(u, v)
  {
    if u != [] && v != [] {
      BytesOrderIsUnitOrder(u[1..], v[1..]);
      var a, b := BytesOf(u), BytesOf(v);
      assert a[1..] == [u[0] % 256] + BytesOf(u[1..]) && b[1..] == [v[0] % 256] + BytesOf(v[1..]);
      assert a[1..][1..] == BytesOf(u[1..]) && b[1..][1..] == BytesOf(v[1..]);
      HighByteFirst(u[0], v[0]);
    }
  }

  lemma {:induction false} BytesOfTell(units: Text)
    requires Below(units, 0x10000)
    ensures |BytesOf(units)| == 2 * |units| && Below(BytesOf(units), 256)
    ensures forall i :: 0 <= i < |units| ==> BytesOf(units)[2 * i] * 256 + BytesOf(units)[2 * i + 1] == units[i]
  {
    if units != [] {
      var b, rest := BytesOf(units), BytesOf(units[1..]);
      BytesOfTell(units[1..]);
      forall i | 0 <= i < |units| ensures b[2 * i] * 256 + b[2 * i + 1] == units[i] {
        if 0 < i {
          assert b[2 * i] == rest[2 * (i - 1)] && b[2 * i + 1] == rest[2 * (i - 1) + 1];
        }
      }
    }
  }

  lemma HighByteFirst(x: nat, y: nat)
    ensures x < y <==> x / 256 < y / 256 || (x / 256 == y / 256 && x % 256 < y % 256)
  {
  }

  // ---- UTF-8 ----------------------------------------------------------------------------------------------------------

  function Utf8Of(c: nat): (b: Text)
    ensures b != []
  {
    if c < 0x80 then [c]
    else if c < 0x800 then [0xC0 + c / 64, 0x80 + c % 64]
    else if c < 0x10000 then [0xE0 + c / 4096, 0x80 + c / 64 % 64, 0x80 + c % 64]
    else [0xF0 + c / 262144, 0x80 + c / 4096 % 64, 0x80 + c / 64 % 64, 0x80 + c % 64]
  }

  function Utf8(s: Text): Text {
    if s == [] then [] else Utf8Of(s[0]) + Utf8(s[1..])
  }

  /** The length and the value of the character at the start of a byte sequence. */
  function LengthAt(b: nat): (k: nat)
    ensures 1 <= k <= 4
  {
    if b < 0x80 then 1 else if b < 0xE0 then 2 else if b < 0xF0 then 3 else 4
  }

  function CharAt(b: Text): nat
    requires b != [] && LengthAt(b[0]) <= |b|
    requires Below(b, 256) && (forall i :: 1 <= i < |b| && i < LengthAt(b[0]) ==> 0x80 <= b[i])
  {
    if b[0] < 0x80 then b[0]
    else if b[0] < 0xE0 then Past(b[0], 0xC0) * 64 + (b[1] - 0x80)
    else if b[0] < 0xF0 then Past(b[0], 0xE0) * 4096 + (b[1] - 0x80) * 64 + (b[2] - 0x80)
    else Past(b[0], 0xF0) * 262144 + (b[1] - 0x80) * 4096 + (b[2] - 0x80) * 64 + (b[3] - 0x80)
  }

  function Past(b: nat, base: nat): nat {
    if b < base then 0 else b - base
  }

  /** What section 3 of RFC 3629 asks: the shortest form, whose first byte tells its length and whose further
      bytes carry six bits each. */
  lemma Utf8OfTells(c: nat)
    requires c < 0x110000
    ensures var b := Utf8Of(c);
            && Below(b, 256) && |b| == LengthAt(b[0])
            && |b| == (if c < 0x80 then 1 else if c < 0x800 then 2 else if c < 0x10000 then 3 else 4)
            && (forall i :: 1 <= i < |b| ==> 0x80 <= b[i] < 0xC0)
            && CharAt(b) == c
  {
    assert c % 64 + (c / 64) * 64 == c;
    assert c / 64 % 64 + (c / 4096) * 64 == c / 64;
    assert c / 4096 % 64 + (c / 262144) * 64 == c / 4096;
  }

  lemma {:induction false} Utf8IsInjective(a: Text, b: Text)
    requires Scalar(a) && Scalar(b) && Utf8(a) == Utf8(b)
    ensures a == b
  {
    if a != [] && b != [] {
      var x, y := Utf8Of(a[0]), Utf8Of(b[0]);
      Utf8OfTells(a[0]);
      Utf8OfTells(b[0]);
      assert Utf8(a)[0] == x[0] && Utf8(b)[0] == y[0];
      assert Utf8(a)[..|x|] == x && Utf8(b)[..|y|] == y;
      assert Utf8(a)[|x|..] == Utf8(a[1..]) && Utf8(b)[|y|..] == Utf8(b[1..]);
      Utf8IsInjective(a[1..], b[1..]);
      assert a == [a[0]] + a[1..] && b == [b[0]] + b[1..];
    }
  }

  // ---- beginnings ------------------------------------------------------------------------------------------

  predicate StartsWith(s: Text, p: Text) {
    |p| <= |s| && s[..|p|] == p
  }
}
