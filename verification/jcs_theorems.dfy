/** What the canonical encoding identifies: two values encode alike exactly when they are the same value. */
module JcsTheorems {
  import opened Options
  import opened Text
  import opened Jcs
  import opened JcsDecode

  // ---- the key order ------------------------------------------------------------------------------------------

  /** Keys sort by their UTF-16 code units. */
  lemma KeyOrderIsUnitOrder(a: Text, b: Text)
    ensures KeyLess(a, b) <==> LexLess(Units(a), Units(b))
  {
    BytesOrderIsUnitOrder(Units(a), Units(b));
  }

  /** Which is not the order of code points: U+10000 sorts before U+FF21. */
  lemma NotCodePointOrder()
    ensures KeyLess([0x10000], [0xFF21])
    ensures LexLess([0xFF21], [0x10000])
  {
    KeyOrderIsUnitOrder([0x10000], [0xFF21]);
    assert Units([0x10000]) == UnitsOf(0x10000) + Units([]);
    assert Units([0xFF21]) == UnitsOf(0xFF21) + Units([]);
  }

  lemma KeyOrderIsTotal(a: Text, b: Text)
    requires Scalar(a) && Scalar(b)
    ensures a == b || KeyLess(a, b) || KeyLess(b, a)
    ensures !KeyLess(a, a) && !(KeyLess(a, b) && KeyLess(b, a))
  {
    KeyOrderIsUnitOrder(a, b);
    KeyOrderIsUnitOrder(b, a);
    KeyOrderIsUnitOrder(a, a);
    LexIsTotal(Units(a), Units(b));
    if Units(a) == Units(b) {
      UnitsAreInjective(a, b);
    }
  }

  ghost predicate DistinctKeys(members: seq<Member>) {
    forall i, j :: 0 <= i < j < |members| ==> members[i].key != members[j].key
  }

  ghost predicate ScalarKeys(members: seq<Member>) {
    forall i :: 0 <= i < |members| ==> Scalar(members[i].key)
  }

  ghost predicate StrictlySorted(members: seq<Member>) {
    forall i, j :: 0 <= i < j < |members| ==> KeyLess(members[i].key, members[j].key)
  }

  lemma {:induction false} InsertSorts(m: Member, sorted: seq<Member>)
    requires StrictlySorted(sorted) && ScalarKeys(sorted) && Scalar(m.key)
    requires forall i :: 0 <= i < |sorted| ==> sorted[i].key != m.key
    ensures StrictlySorted(InsertMember(m, sorted))
  {
    if sorted != [] {
      KeyOrderIsTotal(sorted[0].key, m.key);
      if KeyLess(sorted[0].key, m.key) {
        InsertSorts(m, sorted[1..]);
        var r := InsertMember(m, sorted[1..]);
        forall j | 0 <= j < |r| ensures KeyLess(sorted[0].key, r[j].key) {
          assert r[j] in r;
          if r[j] != m {
            var k :| 0 <= k < |sorted[1..]| && sorted[1..][k] == r[j];
            assert sorted[k + 1] == r[j];
          }
        }
      } else {
        forall j | 0 <= j < |sorted| ensures KeyLess(m.key, sorted[j].key) {
          if j > 0 {
            LexTrans(Utf16Be(m.key), Utf16Be(sorted[0].key), Utf16Be(sorted[j].key));
          }
        }
      }
    }
  }

  /** The members are written in strictly ascending key order. */
  lemma {:induction false} SortSorts(members: seq<Member>)
    requires DistinctKeys(members) && ScalarKeys(members)
    ensures StrictlySorted(SortMembers(members)) && ScalarKeys(SortMembers(members))
  {
    if members != [] {
      SortSorts(members[1..]);
      var r := SortMembers(members[1..]);
      forall i | 0 <= i < |r| ensures r[i].key != members[0].key {
        assert r[i] in members[1..];
      }
      InsertSorts(members[0], r);
      forall i | 0 <= i < |SortMembers(members)| ensures Scalar(SortMembers(members)[i].key) {
        assert SortMembers(members)[i] in members;
      }
    }
  }

  /** Two strictly sorted lists with the same keys have their keys in the same places. */
  lemma {:induction false} SortedKeysAgree(a: seq<Member>, b: seq<Member>)
    requires StrictlySorted(a) && StrictlySorted(b) && ScalarKeys(a) && ScalarKeys(b)
    requires KeysWithin(a, b) && KeysWithin(b, a)
    ensures |a| == |b| && forall i :: 0 <= i < |a| ==> a[i].key == b[i].key
  {
    assert b != [] ==> HasKey(a, b[0].key);
    if a != [] {
      assert HasKey(b, a[0].key);
      FirstKeysAgree(a, b);
      DropFirst(a, b);
      DropFirst(b, a);
      SortedKeysAgree(a[1..], b[1..]);
    }
  }

  predicate HasKey(members: seq<Member>, key: Text) {
    exists j :: 0 <= j < |members| && members[j].key == key
  }

  ghost predicate KeysWithin(a: seq<Member>, b: seq<Member>) {
    forall i :: 0 <= i < |a| ==> HasKey(b, a[i].key)
  }

  lemma FirstKeysAgree(a: seq<Member>, b: seq<Member>)
    requires a != [] && b != []
    requires StrictlySorted(a) && StrictlySorted(b) && ScalarKeys(a) && ScalarKeys(b)
    requires KeysWithin(a, b) && KeysWithin(b, a)
    ensures a[0].key == b[0].key
  {
    assert HasKey(b, a[0].key) && HasKey(a, b[0].key);
    KeyOrderIsTotal(a[0].key, b[0].key);
  }

  lemma DropFirst(a: seq<Member>, b: seq<Member>)
    requires a != [] && b != [] && a[0].key == b[0].key
    requires StrictlySorted(a) && ScalarKeys(a) && KeysWithin(a, b)
    ensures KeysWithin(a[1..], b[1..])
  {
    forall i | 0 <= i < |a[1..]| ensures HasKey(b[1..], a[1..][i].key) {
      assert HasKey(b, a[i + 1].key);
      var j :| 0 <= j < |b| && b[j].key == a[i + 1].key;
      KeyOrderIsTotal(a[0].key, a[i + 1].key);
      assert j > 0 && b[1..][j - 1].key == a[i + 1].key;
    }
  }

  // ---- sameness of values ------------------------------------------------------------------------------------------

  /** Every object has distinct keys, made of code points. */
  ghost predicate WellFormed(v: Json) {
    match v
    case List(items) => forall i :: 0 <= i < |items| ==> WellFormed(items[i])
    case Object(members) =>
      && DistinctKeys(members)
      && (forall i :: 0 <= i < |members| ==> Below(members[i].key, 0x110000) && WellFormed(members[i].value))
    case _ => true
  }

  /** Objects are the same when they map the same keys to the same values, in whatever order. */
  ghost predicate Same(v: Json, w: Json) {
    match v
    case List(items) =>
      w.List? && |items| == |w.items| && forall i :: 0 <= i < |items| ==> Same(items[i], w.items[i])
    case Object(members) =>
      && w.Object?
      && (forall i :: 0 <= i < |members| ==> Mapped(members[i], w.members))
      && KeysWithin(w.members, members)
    case _ => v == w
  }

  /** Some member has the key of `m` and the same value. */
  ghost predicate Mapped(m: Member, others: seq<Member>) {
    exists j :: 0 <= j < |others| && others[j].key == m.key && Same(m.value, others[j].value)
  }

  // ---- the same value encodes alike -----------------------------------------------------------------------------------

  lemma {:induction false} ItemsEncodeAlike(a: seq<Json>, d: nat, b: seq<Json>, e: nat)
    requires forall i :: 0 <= i < |a| ==> Depth(a[i]) < d
    requires forall i :: 0 <= i < |b| ==> Depth(b[i]) < e
    requires |a| == |b| && forall i :: 0 <= i < |a| ==> Encode(a[i]) == Encode(b[i])
    ensures EncodeItems(a, d) == EncodeItems(b, e)
    decreases |a|
  {
    if a != [] {
      ItemsEncodeAlike(a[1..], d, b[1..], e);
    }
  }

  lemma {:induction false} MembersEncodeAlike(a: seq<Member>, d: nat, b: seq<Member>, e: nat)
    requires forall i :: 0 <= i < |a| ==> Depth(a[i].value) < d
    requires forall i :: 0 <= i < |b| ==> Depth(b[i].value) < e
    requires |a| == |b|
    requires forall i :: 0 <= i < |a| ==> a[i].key == b[i].key && Encode(a[i].value) == Encode(b[i].value)
    ensures EncodeMembers(a, d) == EncodeMembers(b, e)
    decreases |a|
  {
    if a != [] {
      MembersEncodeAlike(a[1..], d, b[1..], e);
    }
  }

  ghost predicate AllHaveUtf16(members: seq<Member>) {
    forall i :: 0 <= i < |members| ==> HasUtf16(members[i].key)
  }

  lemma Utf16KeysAreShared(a: seq<Member>, b: seq<Member>)
    requires KeysWithin(a, b) && AllHaveUtf16(b)
    ensures AllHaveUtf16(a)
  {
    forall i | 0 <= i < |a| ensures HasUtf16(a[i].key) {
      assert HasKey(b, a[i].key);
    }
  }

  lemma SortKeepsKeys(members: seq<Member>, others: seq<Member>)
    requires KeysWithin(members, others)
    ensures KeysWithin(SortMembers(members), SortMembers(others))
  {
    var a, b := SortMembers(members), SortMembers(others);
    forall i | 0 <= i < |a| ensures HasKey(b, a[i].key) {
      assert a[i] in members;
      var k :| 0 <= k < |members| && members[k] == a[i];
      assert HasKey(others, members[k].key);
      var j :| 0 <= j < |others| && others[j].key == members[k].key;
      assert others[j] in b;
    }
  }

  lemma SameKeys(members: seq<Member>, others: seq<Member>)
    requires Same(Object(members), Object(others))
    ensures KeysWithin(members, others) && KeysWithin(others, members)
  {
    forall i | 0 <= i < |members| ensures HasKey(others, members[i].key) {
      assert Mapped(members[i], others);
    }
  }

  /** After sorting, the same keys stand in the same places with the same values. */
  lemma SortedSame(members: seq<Member>, others: seq<Member>)
    requires Same(Object(members), Object(others))
    requires DistinctKeys(members) && DistinctKeys(others) && ScalarKeys(members) && ScalarKeys(others)
    ensures var a, b := SortMembers(members), SortMembers(others);
            |a| == |b| && forall i :: 0 <= i < |a| ==> a[i].key == b[i].key && Same(a[i].value, b[i].value)
  {
    var a, b := SortMembers(members), SortMembers(others);
    SortSorts(members);
    SortSorts(others);
    SameKeys(members, others);
    SortKeepsKeys(members, others);
    SortKeepsKeys(others, members);
    SortedKeysAgree(a, b);
    forall i | 0 <= i < |a| ensures Same(a[i].value, b[i].value) {
      PartnerIsSame(members, others, a[i], b[i]);
    }
  }

  lemma PartnerIsSame(members: seq<Member>, others: seq<Member>, m: Member, o: Member)
    requires Same(Object(members), Object(others)) && DistinctKeys(others)
    requires m in members && o in others && m.key == o.key
    ensures Same(m.value, o.value)
  {
    var i :| 0 <= i < |members| && members[i] == m;
    assert Mapped(members[i], others);
    var j :| 0 <= j < |others| && others[j].key == members[i].key && Same(members[i].value, others[j].value);
    var k :| 0 <= k < |others| && others[k] == o;
    assert j == k;
  }

  lemma KeysAreScalar(v: Json)
    requires v.Object? && WellFormed(v) && AllHaveUtf16(v.members)
    ensures ScalarKeys(v.members)
  {
  }

  /** Insertion order does not show: the same value has the same encoding, or the same error. */
  lemma {:induction false} SameEncodesAlike(v: Json, w: Json)
    requires WellFormed(v) && WellFormed(w) && Same(v, w)
    ensures Encode(v) == Encode(w)
    decreases Depth(v)
  {
    match v {
      case List(items) =>
        forall i | 0 <= i < |items| ensures Encode(items[i]) == Encode(w.items[i]) {
          SameEncodesAlike(items[i], w.items[i]);
        }
        ItemsEncodeAlike(items, Depth(v), w.items, Depth(w));
      case Object(members) =>
        SameKeys(members, w.members);
        if AllHaveUtf16(members) {
          Utf16KeysAreShared(w.members, members);
          SortedEncodeAlike(members, w.members);
        } else {
          if AllHaveUtf16(w.members) {
            Utf16KeysAreShared(members, w.members);
          }
        }
      case _ =>
    }
  }

  lemma {:induction false} SortedEncodeAlike(members: seq<Member>, others: seq<Member>)
    requires WellFormed(Object(members)) && WellFormed(Object(others)) && Same(Object(members), Object(others))
    requires AllHaveUtf16(members) && AllHaveUtf16(others)
    ensures Encode(Object(members)) == Encode(Object(others))
    decreases Depth(Object(members)), 0
  {
    var a, b := SortMembers(members), SortMembers(others);
    KeysAreScalar(Object(members));
    KeysAreScalar(Object(others));
    SortedSame(members, others);
    SortedDepth(members);
    SortedDepth(others);
    forall i | 0 <= i < |a| ensures Encode(a[i].value) == Encode(b[i].value) {
      assert a[i] in members && b[i] in others;
      SameEncodesAlike(a[i].value, b[i].value);
    }
    MembersEncodeAlike(a, Depth(Object(members)), b, Depth(Object(others)));
  }

  // ---- what encodes alike is the same value -----------------------------------------------------------------------------

  lemma {:induction false} CanonItemsAt(items: seq<Json>, depth: nat, i: nat)
    requires forall k :: 0 <= k < |items| ==> Depth(items[k]) < depth
    requires i < |items|
    ensures CanonItems(items, depth)[i] == Canon(items[i])
    decreases |items|
  {
    if i > 0 {
      CanonItemsAt(items[1..], depth, i - 1);
    }
  }

  lemma {:induction false} CanonMembersAt(members: seq<Member>, depth: nat, i: nat)
    requires forall k :: 0 <= k < |members| ==> Depth(members[k].value) < depth
    requires i < |members|
    ensures CanonMembers(members, depth)[i] == Member(members[i].key, Canon(members[i].value))
    decreases |members|
  {
    if i > 0 {
      CanonMembersAt(members[1..], depth, i - 1);
    }
  }

  lemma {:induction false} CanonTells(v: Json, w: Json)
    requires Canon(v) == Canon(w)
    ensures Same(v, w)
    decreases Depth(v)
  {
    match v {
      case List(items) =>
        forall i | 0 <= i < |items| ensures Same(items[i], w.items[i]) {
          CanonItemsAt(items, Depth(v), i);
          CanonItemsAt(w.items, Depth(w), i);
          CanonTells(items[i], w.items[i]);
        }
      case Object(members) =>
        CanonMembersTell(members, w.members);
      case _ =>
    }
  }

  lemma {:induction false} CanonMembersTell(members: seq<Member>, others: seq<Member>)
    requires Canon(Object(members)) == Canon(Object(others))
    ensures Same(Object(members), Object(others))
    decreases Depth(Object(members)), 0
  {
    var a, b := SortMembers(members), SortMembers(others);
    SortedDepth(members);
    SortedDepth(others);
    assert |a| == |b|;
    forall i | 0 <= i < |a| ensures a[i].key == b[i].key && Same(a[i].value, b[i].value) {
      CanonMembersAt(a, Depth(Object(members)), i);
      CanonMembersAt(b, Depth(Object(others)), i);
      CanonTells(a[i].value, b[i].value);
    }
    SameAfterSorting(members, others, a, b);
  }

  lemma SameAfterSorting(members: seq<Member>, others: seq<Member>, a: seq<Member>, b: seq<Member>)
    requires forall m :: m in members ==> m in a
    requires forall m :: m in a ==> m in members
    requires forall m :: m in b ==> m in others
    requires forall m :: m in others ==> m in b
    requires |a| == |b| && forall k :: 0 <= k < |a| ==> a[k].key == b[k].key && Same(a[k].value, b[k].value)
    ensures Same(Object(members), Object(others))
  {
    forall i | 0 <= i < |members| ensures Mapped(members[i], others) {
      var j := Partner(members, others, a, b, i);
    }
    forall j | 0 <= j < |others| ensures HasKey(members, others[j].key) {
      PartnerKey(members, others, a, b, j);
    }
  }

  lemma PartnerKey(members: seq<Member>, others: seq<Member>, a: seq<Member>, b: seq<Member>, j: nat)
    requires j < |others| && |a| == |b|
    requires forall m :: m in a ==> m in members
    requires forall m :: m in others ==> m in b
    requires forall k :: 0 <= k < |a| ==> a[k].key == b[k].key
    ensures HasKey(members, others[j].key)
  {
    assert others[j] in b;
    var k :| 0 <= k < |b| && b[k] == others[j];
    assert a[k] in members;
  }

  lemma Partner(members: seq<Member>, others: seq<Member>, a: seq<Member>, b: seq<Member>, i: nat) returns (j: nat)
    requires i < |members| && |a| == |b|
    requires forall m :: m in members ==> m in a
    requires forall m :: m in b ==> m in others
    requires forall k :: 0 <= k < |a| ==> a[k].key == b[k].key && Same(a[k].value, b[k].value)
    ensures j < |others| && others[j].key == members[i].key && Same(members[i].value, others[j].value)
  {
    assert members[i] in a;
    var k :| 0 <= k < |a| && a[k] == members[i];
    assert b[k] in others;
    j :| 0 <= j < |others| && others[j] == b[k];
  }

  /** Two encodable values have the same encoding exactly when they are the same value. */
  lemma EncodingIdentifies(v: Json, w: Json)
    requires WellFormed(v) && WellFormed(w) && Encode(v).Ok? && Encode(w).Ok?
    ensures Encode(v) == Encode(w) <==> Same(v, w)
  {
    if Encode(v) == Encode(w) {
      RoundTrip(v, []);
      RoundTrip(w, []);
      CanonTells(v, w);
    }
    if Same(v, w) {
      SameEncodesAlike(v, w);
    }
  }

  /** The same holds of the canonical bytes, on which the digest is taken. */
  lemma BytesIdentify(v: Json, w: Json)
    requires WellFormed(v) && WellFormed(w) && CanonicalBytes(v).Some? && CanonicalBytes(w).Some?
    ensures CanonicalBytes(v) == CanonicalBytes(w) <==> Same(v, w)
  {
    EncodingIdentifies(v, w);
    if CanonicalBytes(v) == CanonicalBytes(w) {
      Utf8IsInjective(Encode(v).value, Encode(w).value);
    }
  }

  // ---- what can be encoded -------------------------------------------------------------------------------------------------

  /** No float and no foreign value anywhere, and no key with a lone surrogate. */
  ghost predicate Clean(v: Json) {
    match v
    case Float => false
    case Alien => false
    case List(items) => forall i :: 0 <= i < |items| ==> Clean(items[i])
    case Object(members) => AllHaveUtf16(members) && forall i :: 0 <= i < |members| ==> Clean(members[i].value)
    case _ => true
  }

  lemma {:induction false} ItemsEncode(items: seq<Json>, depth: nat)
    requires forall i :: 0 <= i < |items| ==> Depth(items[i]) < depth
    ensures EncodeItems(items, depth).Ok? <==> forall i :: 0 <= i < |items| ==> Encode(items[i]).Ok?
    decreases |items|
  {
    if items != [] {
      ItemsEncode(items[1..], depth);
      assert forall i :: 1 <= i < |items| ==> items[i] == items[1..][i - 1];
    }
  }

  ghost predicate AllEncode(members: seq<Member>) {
    forall i :: 0 <= i < |members| ==> Encode(members[i].value).Ok?
  }

  lemma {:induction false} MembersEncode(members: seq<Member>, depth: nat)
    requires forall i :: 0 <= i < |members| ==> Depth(members[i].value) < depth
    ensures EncodeMembers(members, depth).Ok? <==> AllEncode(members)
    decreases |members|
  {
    if members != [] {
      MembersEncode(members[1..], depth);
      assert forall i :: 1 <= i < |members| ==> members[i] == members[1..][i - 1];
    }
  }

  /** Encoding succeeds exactly on the clean values: one float, at whatever depth, refuses the whole. */
  lemma {:induction false} EncodesIffClean(v: Json)
    ensures Encode(v).Ok? <==> Clean(v)
    decreases Depth(v)
  {
    match v {
      case List(items) =>
        forall i | 0 <= i < |items| ensures Encode(items[i]).Ok? <==> Clean(items[i]) {
          EncodesIffClean(items[i]);
        }
        ItemsEncode(items, Depth(v));
      case Object(members) =>
        forall i | 0 <= i < |members| ensures Encode(members[i].value).Ok? <==> Clean(members[i].value) {
          EncodesIffClean(members[i].value);
        }
        SortedDepth(members);
        MembersEncode(SortMembers(members), Depth(v));
        SortedEncodes(members);
      case _ =>
    }
  }

  lemma SortedEncodes(members: seq<Member>)
    ensures AllEncode(members) <==> AllEncode(SortMembers(members))
  {
    SameElementsEncode(members, SortMembers(members));
    SameElementsEncode(SortMembers(members), members);
  }

  lemma SameElementsEncode(a: seq<Member>, b: seq<Member>)
    requires forall m :: m in b ==> m in a
    ensures AllEncode(a) ==> AllEncode(b)
  {
    if AllEncode(a) {
      forall i | 0 <= i < |b| ensures Encode(b[i].value).Ok? {
        assert b[i] in a;
      }
    }
  }
}
