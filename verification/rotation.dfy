/** Rotating passwords and verifying the stored hashes against the written file. */
module Rotation {
  import opened Options
  import opened Text
  import opened Credentials
  import opened CredentialFile

  /** The fixed lines of the file. */
  datatype Layout = Layout(opening: seq<Text>, prose: seq<Text>, heading: Text, closing: seq<Text>)

  function FileText(layout: Layout, reason: Text, rows: seq<Row>): Text {
    Join(FileLines(layout.opening, reason, layout.prose, layout.heading, rows, layout.closing))
  }

  ghost predicate Writable(layout: Layout, rows: seq<Row>) {
    GoodFile(layout.opening, layout.prose, layout.heading, rows, layout.closing)
  }

  // ---- rotate ---------------------------------------------------------------------------------------------------

  /** The hash file: a later hash for the same user replaces an earlier one. */
  function Stored(rows: seq<Row>, hashes: seq<Text>): map<Text, Text>
    requires |rows| == |hashes|
  {
    if rows == [] then map[]
    else
      var last := |rows| - 1;
      Stored(rows[..last], hashes[..last])[Digits(rows[last].id) := hashes[last]]
  }

  method WriteCredentials(layout: Layout, reason: Text, rows: seq<Row>) returns (text: Text)
    ensures text == FileText(layout, reason, rows)
  {
    var lines := layout.opening + [REASON + reason] + layout.prose + [layout.heading, RULE];
    ghost var before := lines;
    for i := 0 to |rows|
      invariant lines == before + RowLines(rows)[..i]
    {
      lines := lines + [Written(rows[i])];
    }
    assert RowLines(rows)[..|rows|] == RowLines(rows);
    text := Join(lines + layout.closing);
  }

  /** `users` is absent when the argument is not a list of integers; `passwords` and `hashes` are what the
      generator and the hash function return, call by call. */
  method Rotate(underCerts: bool, users: Option<seq<int>>, emails: map<nat, Text>, passwords: seq<Text>, hashes: seq<Text>,
                layout: Layout, reason: Text)
    returns (code: int, text: Option<Text>, stored: map<Text, Text>)
    requires users.Some? ==> |passwords| == |hashes| == |users.value|
    ensures code == 0 || (code == 2 && text == None && stored == map[])
    ensures code == 0 <==> underCerts && users.Some? && users.value != []
                           && forall i :: 0 <= i < |users.value| ==> users.value[i] >= 0 && users.value[i] in emails
    ensures code == 0 ==> exists rows: seq<Row> ::
              && |rows| == |hashes|
              && (forall i :: 0 <= i < |rows| ==>
                    rows[i].id == users.value[i] && rows[i].email == emails[rows[i].id] && rows[i].password == passwords[i])
              && text == Some(FileText(layout, reason, rows)) && stored == Stored(rows, hashes)
  {
    text, stored := None, map[];
    if !underCerts || users.None? || users.value == [] {
      return 2, None, map[];
    }
    var ids := users.value;
    var unknown := exists i :: 0 <= i < |ids| && !(ids[i] >= 0 && ids[i] in emails);
    if unknown {
      return 2, None, map[];
    }
    var rows: seq<Row> := [];
    for i := 0 to |ids|
      invariant |rows| == i
      invariant forall k :: 0 <= k < i ==>
                  rows[k].id == ids[k] && rows[k].email == emails[rows[k].id] && rows[k].password == passwords[k]
      invariant stored == Stored(rows, hashes[..i])
    {
      var id: nat := ids[i];
      ghost var before := rows;
      rows := rows + [Row(id, emails[id], passwords[i])];
      stored := stored[Digits(id) := hashes[i]];
      assert rows[..i] == before && hashes[..i + 1][..i] == hashes[..i];
    }
    assert hashes[..|ids|] == hashes;
    var written := WriteCredentials(layout, reason, rows);
    text := Some(written);
    code := 0;
  }

  // ---- verify ------------------------------------------------------------------------------------------------------

  predicate Verified(creds: map<Text, Text>, stored: map<Text, Text>, good: (Text, Text) -> bool, uid: Text)
    requires uid in creds
  {
    uid in stored && good(creds[uid], stored[uid])
  }

  ghost function VerifyCode(creds: map<Text, Text>, stored: map<Text, Text>, good: (Text, Text) -> bool): int {
    if creds == map[] then 2 else if AllVerified(creds, stored, good) then 0 else 1
  }

  ghost predicate AllVerified(creds: map<Text, Text>, stored: map<Text, Text>, good: (Text, Text) -> bool) {
    forall uid :: uid in creds ==> Verified(creds, stored, good, uid)
  }

  /** The users are visited in any order. */
  method Verify(creds: map<Text, Text>, stored: map<Text, Text>, good: (Text, Text) -> bool) returns (code: int)
    ensures code == VerifyCode(creds, stored, good)
    ensures code == 2 <==> creds == map[]
    ensures code == 0 <==> creds != map[] && forall uid :: uid in creds ==> uid in stored && good(creds[uid], stored[uid])
    ensures code == 0 || code == 1 || code == 2
  {
    if creds == map[] {
      return 2;
    }
    var ok := true;
    var todo := creds.Keys;
    while todo != {}
      invariant todo <= creds.Keys
      invariant ok <==> forall uid :: uid in creds && uid !in todo ==> Verified(creds, stored, good, uid)
      decreases |todo|
    {
      var uid :| uid in todo;
      todo := todo - {uid};
      if uid !in stored {
        ok := false;
        assert !Verified(creds, stored, good, uid);
        continue;
      }
      ok := ok && good(creds[uid], stored[uid]);
    }
    code := if ok then 0 else 1;
  }

  // ---- rotate, then verify -----------------------------------------------------------------------------------------------

  ghost predicate IsLastRow(rows: seq<Row>, id: nat, j: nat) {
    j < |rows| && rows[j].id == id && forall k :: j < k < |rows| ==> rows[k].id != id
  }

  lemma {:induction false} LastHashWins(rows: seq<Row>, hashes: seq<Text>, id: nat, j: nat)
    requires |rows| == |hashes| && IsLastRow(rows, id, j)
    ensures Digits(id) in Stored(rows, hashes) && Stored(rows, hashes)[Digits(id)] == hashes[j]
  {
    var last := |rows| - 1;
    if j < last {
      LastHashWins(rows[..last], hashes[..last], id, j);
      if Digits(rows[last].id) == Digits(id) {
        DigitsAreInjective(rows[last].id, id);
      }
    }
  }

  lemma {:induction false} FindLastRow(rows: seq<Row>, id: nat, i: nat) returns (j: nat)
    requires i < |rows| && rows[i].id == id
    ensures IsLastRow(rows, id, j) && i <= j
  {
    var last := |rows| - 1;
    if rows[last].id == id {
      j := last;
    } else {
      j := FindLastRow(rows[..last], id, i);
    }
  }

  /** The password read back for every user with a surviving row goes with that user's stored hash. */
  ghost predicate SurvivorsMatch(rows: seq<Row>, hashes: seq<Text>, good: (Text, Text) -> bool)
    requires |rows| == |hashes|
  {
    forall i: nat, j: nat ::
      i < |rows| && IsLastSurvivor(rows, rows[i].id, i) && IsLastRow(rows, rows[i].id, j) ==>
        good(rows[i].password, hashes[j])
  }

  ghost predicate SomeSurvive(rows: seq<Row>) {
    exists i :: 0 <= i < |rows| && Survives(rows[i])
  }

  lemma EntryVerified(rows: seq<Row>, hashes: seq<Text>, good: (Text, Text) -> bool, i: nat, j: nat)
    requires |rows| == |hashes| && forall k :: 0 <= k < |rows| ==> CleanRow(rows[k])
    requires i < |rows| && IsLastSurvivor(rows, rows[i].id, i) && IsLastRow(rows, rows[i].id, j)
    ensures Digits(rows[i].id) in Parsed(RowLines(rows))
    ensures Verified(Parsed(RowLines(rows)), Stored(rows, hashes), good, Digits(rows[i].id))
       <==> good(rows[i].password, hashes[j])
  {
    LastSurvivorWins(rows, rows[i].id, i);
    LastHashWins(rows, hashes, rows[i].id, j);
  }

  /** Every row of the reason whose user has no surviving row in the table goes with a stored hash. */
  ghost predicate ReasonMatches(reason: Text, rows: seq<Row>, hashes: seq<Text>, good: (Text, Text) -> bool)
    requires |rows| == |hashes|
  {
    forall uid :: uid in ReasonEntries(reason) && !ComesFromRow(rows, uid) ==>
      uid in Stored(rows, hashes) && good(ReasonEntries(reason)[uid], Stored(rows, hashes)[uid])
  }

  /** Verifying the written file against the hashes of the same rotation, for every reason: it finds no rows
      exactly when every row was lost to three dashes and the reason holds none, and it reports success exactly
      when some row can be read, the password read back for each surviving user goes with the hash of the user's
      last row, and so does every other row of the reason. */
  lemma RotateThenVerify(layout: Layout, reason: Text, rows: seq<Row>, hashes: seq<Text>, good: (Text, Text) -> bool)
    requires |rows| == |hashes| && Writable(layout, rows)
    ensures var code := VerifyCode(Parsed(Lines(FileText(layout, reason, rows))), Stored(rows, hashes), good);
            var some := SomeSurvive(rows) || ReasonEntries(reason) != map[];
            && (code == 2 <==> !some)
            && (code == 0 <==> some && SurvivorsMatch(rows, hashes, good) && ReasonMatches(reason, rows, hashes, good))
  {
    FileIsReasonAndRows(layout.opening, reason, layout.prose, layout.heading, rows, layout.closing);
    EmptyIffNoneSurvive(rows);
    AllVerifiedIffMatch(rows, hashes, good);
    forall uid ensures uid in Parsed(RowLines(rows)) <==> ComesFromRow(rows, uid) {
      EntryIffRow(rows, uid);
    }
    VerifiedInParts(ReasonEntries(reason), Parsed(RowLines(rows)), Stored(rows, hashes), good);
  }

  /** Later entries replace earlier ones, so the earlier count only where there is no later one. */
  lemma VerifiedInParts(first: map<Text, Text>, second: map<Text, Text>, stored: map<Text, Text>, good: (Text, Text) -> bool)
    ensures first + second == map[] <==> first == map[] && second == map[]
    ensures AllVerified(first + second, stored, good)
       <==> && AllVerified(second, stored, good)
            && forall uid :: uid in first && uid !in second ==> Verified(first, stored, good, uid)
  {
    var both := first + second;
    forall uid | uid in second ensures Verified(both, stored, good, uid) <==> Verified(second, stored, good, uid) {}
    forall uid | uid in first && uid !in second
      ensures Verified(both, stored, good, uid) <==> Verified(first, stored, good, uid)
    {}
    if both == map[] {
      assert forall uid :: uid in first || uid in second ==> uid in both;
    }
  }

  lemma EmptyIffNoneSurvive(rows: seq<Row>)
    requires forall k :: 0 <= k < |rows| ==> CleanRow(rows[k])
    ensures Parsed(RowLines(rows)) == map[] <==> !SomeSurvive(rows)
  {
    var creds := Parsed(RowLines(rows));
    if SomeSurvive(rows) {
      var i :| 0 <= i < |rows| && Survives(rows[i]);
      EntryIffSurvivor(rows, rows[i].id);
      assert Digits(rows[i].id) in creds;
    }
    if creds != map[] {
      var key :| key in creds;
      EntriesComeFromRows(rows, key);
    }
  }

  lemma MatchVerifies(rows: seq<Row>, hashes: seq<Text>, good: (Text, Text) -> bool, uid: Text)
    requires |rows| == |hashes| && forall k :: 0 <= k < |rows| ==> CleanRow(rows[k])
    requires SurvivorsMatch(rows, hashes, good) && uid in Parsed(RowLines(rows))
    ensures Verified(Parsed(RowLines(rows)), Stored(rows, hashes), good, uid)
  {
    EntriesComeFromRows(rows, uid);
    var i :| 0 <= i < |rows| && Digits(rows[i].id) == uid && Survives(rows[i]);
    var k := FindLastSurvivor(rows, rows[i].id);
    var j := FindLastRow(rows, rows[k].id, k);
    EntryVerified(rows, hashes, good, k, j);
  }

  lemma VerifiedMatches(rows: seq<Row>, hashes: seq<Text>, good: (Text, Text) -> bool, i: nat, j: nat)
    requires |rows| == |hashes| && forall k :: 0 <= k < |rows| ==> CleanRow(rows[k])
    requires AllVerified(Parsed(RowLines(rows)), Stored(rows, hashes), good)
    requires i < |rows| && IsLastSurvivor(rows, rows[i].id, i) && IsLastRow(rows, rows[i].id, j)
    ensures good(rows[i].password, hashes[j])
  {
    EntryVerified(rows, hashes, good, i, j);
  }

  lemma AllVerifiedIffMatch(rows: seq<Row>, hashes: seq<Text>, good: (Text, Text) -> bool)
    requires |rows| == |hashes| && forall k :: 0 <= k < |rows| ==> CleanRow(rows[k])
    ensures AllVerified(Parsed(RowLines(rows)), Stored(rows, hashes), good) <==> SurvivorsMatch(rows, hashes, good)
  {
    if SurvivorsMatch(rows, hashes, good) {
      forall uid | uid in Parsed(RowLines(rows)) ensures Verified(Parsed(RowLines(rows)), Stored(rows, hashes), good, uid) {
        MatchVerifies(rows, hashes, good, uid);
      }
    }
    if AllVerified(Parsed(RowLines(rows)), Stored(rows, hashes), good) {
      forall i: nat, j: nat | i < |rows| && IsLastSurvivor(rows, rows[i].id, i) && IsLastRow(rows, rows[i].id, j)
        ensures good(rows[i].password, hashes[j])
      {
        VerifiedMatches(rows, hashes, good, i, j);
      }
    }
  }

  /** When no user is named twice and each hash goes with its own password, nothing but rows of the reason can
      fail: verifying succeeds exactly when some row can be read and those of the reason match. */
  lemma DistinctUsersVerify(layout: Layout, reason: Text, rows: seq<Row>, hashes: seq<Text>, good: (Text, Text) -> bool)
    requires |rows| == |hashes| && Writable(layout, rows)
    requires forall i, j :: 0 <= i < j < |rows| ==> rows[i].id != rows[j].id
    requires forall i :: 0 <= i < |rows| ==> good(rows[i].password, hashes[i])
    ensures VerifyCode(Parsed(Lines(FileText(layout, reason, rows))), Stored(rows, hashes), good)
         == if !SomeSurvive(rows) && ReasonEntries(reason) == map[] then 2
            else if ReasonMatches(reason, rows, hashes, good) then 0 else 1
  {
    RotateThenVerify(layout, reason, rows, hashes, good);
  }

  /** A reason of one line, or one whose further lines hold no row, changes nothing. */
  lemma PlainReasonVerifies(layout: Layout, reason: Text, rows: seq<Row>, hashes: seq<Text>, good: (Text, Text) -> bool)
    requires |rows| == |hashes| && Writable(layout, rows)
    requires forall uid :: uid in ReasonEntries(reason) ==> ComesFromRow(rows, uid)
    ensures VerifyCode(Parsed(Lines(FileText(layout, reason, rows))), Stored(rows, hashes), good)
         == if !SomeSurvive(rows) then 2 else if SurvivorsMatch(rows, hashes, good) then 0 else 1
  {
    RotateThenVerify(layout, reason, rows, hashes, good);
    if ReasonEntries(reason) != map[] {
      var uid :| uid in ReasonEntries(reason);
      assert ComesFromRow(rows, uid);
    }
  }

  /** A user named twice whose last row is lost is read back with the earlier password, which the stored hash
      refuses: verifying a fresh rotation then reports a mismatch, whatever its reason. */
  lemma TwiceNamedMismatch(layout: Layout, reason: Text)
    requires Writable(layout, [Row(3, [97], [98]), Row(3, [97], [DASH, DASH, DASH])])
    ensures var rows := [Row(3, [97], [98]), Row(3, [97], [DASH, DASH, DASH])];
            var hashes := [[1], [2]];
            var good := (password: Text, hash: Text) =>
              (password == [98] && hash == [1]) || (password == [DASH, DASH, DASH] && hash == [2]);
            && (forall i :: 0 <= i < 2 ==> good(rows[i].password, hashes[i]))
            && VerifyCode(Parsed(Lines(FileText(layout, reason, rows))), Stored(rows, hashes), good) == 1
  {
    var rows := [Row(3, [97], [98]), Row(3, [97], [DASH, DASH, DASH])];
    var hashes: seq<Text> := [[1], [2]];
    var good := (password: Text, hash: Text) =>
      (password == [98] && hash == [1]) || (password == [DASH, DASH, DASH] && hash == [2]);
    RotateThenVerify(layout, reason, rows, hashes, good);
    assert Survives(rows[0]);
    assert !Survives(rows[1]) by {
      assert rows[1].password[0] == DASH && rows[1].password[1] == DASH && rows[1].password[2] == DASH;
    }
    assert IsLastSurvivor(rows, 3, 0) && IsLastRow(rows, 3, 1);
    assert !good(rows[0].password, hashes[1]);
  }
}
