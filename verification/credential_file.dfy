/** The whole credential file: what parsing it yields, and what rotating and then verifying reports. */
module CredentialFile {
  import opened Options
  import opened Text
  import opened Credentials

  // ---- lines of a joined text -----------------------------------------------------------------------------------

  lemma BreakThere(line: Text, rest: Text)
    requires OneLine(line)
    ensures BreakAt(line + [LF] + rest) == |line|
    ensures BreakAt(line) == |line|
  {
    var s := line + [LF] + rest;
    var k := BreakAt(s);
    assert s[|line|] == LF && forall i :: 0 <= i < |line| ==> s[i] == line[i];
    assert s[..k] == s[..k] && forall i :: 0 <= i < k ==> s[..k][i] == s[i];
  }

  /** The lines joined, with a last empty line left out. */
  function Shown(lines: seq<Text>): seq<Text> {
    if lines != [] && lines[|lines| - 1] == [] then lines[..|lines| - 1] else lines
  }

  lemma {:induction false} LinesOfJoin(lines: seq<Text>)
    requires forall i :: 0 <= i < |lines| ==> OneLine(lines[i])
    ensures Lines(Join(lines)) == Shown(lines)
  {
    if |lines| == 1 {
      BreakThere(lines[0], []);
    } else if lines != [] {
      LinesOfJoin(lines[1..]);
      FirstLine(lines[0], Join(lines[1..]));
      ShownOfMore(lines);
    }
  }

  lemma FirstLine(line: Text, rest: Text)
    requires OneLine(line)
    ensures Lines(line + [LF] + rest) == [line] + Lines(rest)
  {
    BreakThere(line, rest);
    var s := line + [LF] + rest;
    assert s[..|line|] == line && s[|line| + 1..] == rest && s[|line|] == LF;
  }

  lemma ShownOfMore(lines: seq<Text>)
    requires |lines| > 1
    ensures Shown(lines) == [lines[0]] + Shown(lines[1..])
  {
    assert lines[1..][|lines| - 2] == lines[|lines| - 1];
  }

  // ---- only the rows count ------------------------------------------------------------------------------------------

  ghost predicate NoEntries(lines: seq<Text>) {
    forall i :: 0 <= i < |lines| ==> ParseLine(lines[i]).None?
  }

  lemma {:induction false} ParsedAround(before: seq<Text>, lines: seq<Text>, after: seq<Text>)
    requires NoEntries(before) && NoEntries(after)
    ensures Parsed(before + lines + after) == Parsed(lines)
    decreases |before| + |lines| + |after|
  {
    var all := before + lines + after;
    if after != [] {
      assert all[..|all| - 1] == before + lines + after[..|after| - 1];
      ParsedAround(before, lines, after[..|after| - 1]);
    } else if lines != [] {
      assert all[..|all| - 1] == before + lines[..|lines| - 1] + after;
      ParsedAround(before, lines[..|lines| - 1], after);
      assert all[|all| - 1] == lines[|lines| - 1];
    } else if before != [] {
      assert all == before && all[..|all| - 1] == before[..|before| - 1] + lines + after;
      ParsedAround(before[..|before| - 1], lines, after);
    }
  }

  ghost predicate AllProse(lines: seq<Text>) {
    forall i :: 0 <= i < |lines| ==> IsProse(lines[i])
  }

  /** What a well-made file is made of: clean cells, and fixed lines that are not rows.  The reason is any text. */
  ghost predicate GoodFile(opening: seq<Text>, prose: seq<Text>, heading: Text, rows: seq<Row>, closing: seq<Text>) {
    && AllProse(opening) && AllProse(prose) && AllProse(closing) && IsHeading(heading)
    && forall i :: 0 <= i < |rows| ==> CleanRow(rows[i])
  }

  lemma RuleIsProse()
    ensures IsProse(RULE)
  {
    assert RULE[..2][1] == DASH;
  }

  lemma RowIsOneLine(r: Row)
    requires CleanRow(r)
    ensures OneLine(Written(r))
  {
    assert forall i :: 0 <= i < |Digits(r.id)| ==> IsDigit(Digits(r.id)[i]);
  }

  /** The entries of joined lines that have no break inside. */
  lemma ParsedOfJoin(lines: seq<Text>)
    requires forall i :: 0 <= i < |lines| ==> OneLine(lines[i])
    ensures Parsed(Lines(Join(lines))) == Parsed(lines)
  {
    LinesOfJoin(lines);
    ShownParsesAlike(lines);
  }

  /** The lines after the reason. */
  function After(prose: seq<Text>, heading: Text, rows: seq<Row>, closing: seq<Text>): seq<Text> {
    prose + [heading, RULE] + RowLines(rows) + closing
  }

  lemma AfterIsOneLines(prose: seq<Text>, heading: Text, rows: seq<Row>, closing: seq<Text>)
    requires GoodFile([], prose, heading, rows, closing)
    ensures var lines := After(prose, heading, rows, closing); forall i :: 0 <= i < |lines| ==> OneLine(lines[i])
  {
    var before, lines := prose + [heading, RULE], After(prose, heading, rows, closing);
    RuleIsProse();
    forall i | 0 <= i < |lines| ensures OneLine(lines[i]) {
      if |before| <= i < |before| + |rows| {
        RowIsOneLine(rows[i - |before|]);
      }
    }
  }

  lemma ProseHoldsNoEntries(prose: seq<Text>, heading: Text)
    requires AllProse(prose) && IsHeading(heading)
    ensures NoEntries(prose) && NoEntries(prose + [heading, RULE])
  {
    RuleIsProse();
  }

  lemma AfterIsItsRows(prose: seq<Text>, heading: Text, rows: seq<Row>, closing: seq<Text>)
    requires GoodFile([], prose, heading, rows, closing)
    ensures Parsed(Lines(Join(After(prose, heading, rows, closing)))) == Parsed(RowLines(rows))
  {
    AfterIsOneLines(prose, heading, rows, closing);
    ParsedOfJoin(After(prose, heading, rows, closing));
    ProseHoldsNoEntries(prose, heading);
    ProseHoldsNoEntries(closing, heading);
    ParsedAround(prose + [heading, RULE], RowLines(rows), closing);
  }

  // ---- a reason of any number of lines ---------------------------------------------------------------------------

  /** Where the line after the first break begins. */
  function NextLine(s: Text): (k: nat)
    requires BreakAt(s) < |s|
    ensures BreakAt(s) < k <= |s|
  {
    var k := BreakAt(s);
    if s[k] == CR && k + 1 < |s| && s[k + 1] == LF then k + 2 else k + 1
  }

  lemma LinesStep(s: Text)
    requires BreakAt(s) < |s|
    ensures Lines(s) == [s[..BreakAt(s)]] + Lines(s[NextLine(s)..])
  {}

  /** The lines of both, with an empty line between them at most. */
  predicate InTurn(all: seq<Text>, first: seq<Text>, second: seq<Text>) {
    all == first + second || all == first + [[]] + second
  }

  lemma PrependInTurn(line: Text, all: seq<Text>, first: seq<Text>, second: seq<Text>)
    requires InTurn(all, first, second)
    ensures InTurn([line] + all, [line] + first, second)
  {
    assert [line] + (first + second) == ([line] + first) + second;
    assert [line] + (first + [[]] + second) == ([line] + first) + [[]] + second;
  }

  lemma WholeInTurn(a: Text, b: Text)
    requires BreakAt(a) == |a|
    ensures InTurn(Lines(a + [LF] + b), Lines(a), Lines(b))
  {
    FirstLine(a, b);
    WholeLine(a);
  }

  /** A line feed between two texts. */
  lemma {:induction false} LinesAcross(a: Text, b: Text)
    ensures InTurn(Lines(a + [LF] + b), Lines(a), Lines(b))
    decreases |a|
  {
    var s := a + [LF] + b;
    if BreakAt(a) == |a| {
      WholeInTurn(a, b);
    } else {
      BreakInFront(a, b);
      LinesStep(a);
      LinesStep(s);
      BeyondBreak(a, b);
      if NextLine(s) <= |a| {
        LinesAcross(a[NextLine(a)..], b);
      }
      PrependInTurn(a[..BreakAt(a)], Lines(s[NextLine(s)..]), Lines(a[NextLine(a)..]), Lines(b));
    }
  }

  lemma BreakInFront(a: Text, b: Text)
    requires BreakAt(a) < |a|
    ensures BreakAt(a + [LF] + b) == BreakAt(a)
  {
    assert a + [LF] + b == a + ([LF] + b);
    SameBreak(a, [LF] + b);
  }

  lemma WholeLine(a: Text)
    requires BreakAt(a) == |a|
    ensures Lines(a) == if a == [] then [] else [a]
    ensures OneLine(a)
  {
    assert a[..|a|] == a;
  }

  lemma BeyondBreak(a: Text, b: Text)
    requires BreakAt(a) < |a|
    requires BreakAt(a + [LF] + b) == BreakAt(a)
    ensures var s := a + [LF] + b;
            && s[..BreakAt(s)] == a[..BreakAt(a)]
            && (NextLine(s) <= |a| ==> NextLine(s) == NextLine(a) && s[NextLine(s)..] == a[NextLine(a)..] + [LF] + b)
            && (NextLine(s) > |a| ==> NextLine(a) == |a| && s[NextLine(s)..] == b)
  {}

  lemma SameBreak(a: Text, rest: Text)
    requires BreakAt(a) < |a|
    ensures BreakAt(a + rest) == BreakAt(a)
  {
    var k, m := BreakAt(a), BreakAt(a + rest);
    assert forall i :: 0 <= i < k ==> a[..k][i] == a[i] && (a + rest)[i] == a[i];
    assert forall i :: 0 <= i < m ==> (a + rest)[..m][i] == (a + rest)[i];
    assert (a + rest)[k] == a[k];
  }

  function Entered(m: map<Text, Text>, line: Text): map<Text, Text> {
    match ParseLine(line)
    case None => m
    case Some(entry) => m[entry.0 := entry.1]
  }

  lemma ParsedLast(front: seq<Text>, line: Text)
    ensures Parsed(front + [line]) == Entered(Parsed(front), line)
  {
    assert (front + [line])[..|front|] == front;
  }

  lemma EnteredLater(a: map<Text, Text>, b: map<Text, Text>, line: Text)
    ensures Entered(a + b, line) == a + Entered(b, line)
  {}

  /** Entries of later lines replace those of earlier ones. */
  lemma {:induction false} ParsedAppend(a: seq<Text>, b: seq<Text>)
    ensures Parsed(a + b) == Parsed(a) + Parsed(b)
  {
    if b == [] {
      assert a + b == a;
    } else {
      var front, line := b[..|b| - 1], b[|b| - 1];
      assert b == front + [line] && a + b == (a + front) + [line];
      ParsedAppend(a, front);
      ParsedAppendOne(a, front, line);
    }
  }

  lemma ParsedAppendOne(a: seq<Text>, front: seq<Text>, line: Text)
    requires Parsed(a + front) == Parsed(a) + Parsed(front)
    ensures Parsed((a + front) + [line]) == Parsed(a) + Parsed(front + [line])
  {
    ParsedLast(a + front, line);
    ParsedLast(front, line);
    EnteredLater(Parsed(a), Parsed(front), line);
  }

  lemma ParsedAcross(a: Text, b: Text)
    ensures Parsed(Lines(a + [LF] + b)) == Parsed(Lines(a)) + Parsed(Lines(b))
  {
    LinesAcross(a, b);
    ParsedAppend(Lines(a), Lines(b));
    ParsedAppend(Lines(a) + [[]], Lines(b));
    assert (Lines(a) + [[]])[..|Lines(a)|] == Lines(a) && ParseLine([]).None?;
  }

  lemma {:induction false} JoinAppend(a: seq<Text>, b: seq<Text>)
    requires a != [] && b != []
    ensures Join(a + b) == Join(a) + [LF] + Join(b)
  {
    if |a| == 1 {
      assert a + b == [a[0]] + b && (a + b)[1..] == b;
    } else {
      assert (a + b)[1..] == a[1..] + b;
      JoinAppend(a[1..], b);
      assert a[0] + [LF] + (Join(a[1..]) + [LF] + Join(b)) == a[0] + [LF] + Join(a[1..]) + [LF] + Join(b);
    }
  }

  /** The rows of the reason: what parsing it alone yields. */
  function ReasonEntries(reason: Text): map<Text, Text> {
    Parsed(Lines(REASON + reason))
  }

  /** Whatever the reason is, the file is read as the rows of the reason followed by the rows of the table. */
  lemma FileIsReasonAndRows(opening: seq<Text>, reason: Text, prose: seq<Text>, heading: Text, rows: seq<Row>,
                            closing: seq<Text>)
    requires GoodFile(opening, prose, heading, rows, closing)
    ensures Parsed(Lines(Join(FileLines(opening, reason, prose, heading, rows, closing))))
         == ReasonEntries(reason) + Parsed(RowLines(rows))
  {
    var after := After(prose, heading, rows, closing);
    assert FileLines(opening, reason, prose, heading, rows, closing) == opening + [REASON + reason] + after;
    JoinAppend(opening + [REASON + reason], after);
    ParsedAcross(Join(opening + [REASON + reason]), Join(after));
    AfterIsItsRows(prose, heading, rows, closing);
    OpeningHoldsNothing(opening, REASON + reason);
  }

  lemma OpeningHoldsNothing(opening: seq<Text>, line: Text)
    requires AllProse(opening)
    ensures Parsed(Lines(Join(opening + [line]))) == Parsed(Lines(line))
  {
    if opening == [] {
      assert opening + [line] == [line];
    } else {
      JoinAppend(opening, [line]);
      ParsedAcross(Join(opening), line);
      ProseIsEmpty(opening);
      assert map[] + Parsed(Lines(line)) == Parsed(Lines(line));
    }
  }

  lemma ProseIsEmpty(lines: seq<Text>)
    requires AllProse(lines)
    ensures Parsed(Lines(Join(lines))) == map[]
  {
    ParsedOfJoin(lines);
    ProseParsesToNothing(lines);
  }

  lemma ProseParsesToNothing(lines: seq<Text>)
    requires AllProse(lines)
    ensures Parsed(lines) == map[]
  {
    ParsedAround(lines, [], []);
    assert lines + [] + [] == lines;
    assert Parsed([]) == map[];
  }

  /** The file is read as its rows alone exactly when every user for whom the reason holds a row has a row in
      the table that can be read. */
  lemma ReadAsItsRowsIff(opening: seq<Text>, reason: Text, prose: seq<Text>, heading: Text, rows: seq<Row>,
                         closing: seq<Text>)
    requires GoodFile(opening, prose, heading, rows, closing)
    ensures Parsed(Lines(Join(FileLines(opening, reason, prose, heading, rows, closing)))) == Parsed(RowLines(rows))
       <==> forall key :: key in ReasonEntries(reason) ==> ComesFromRow(rows, key)
  {
    FileIsReasonAndRows(opening, reason, prose, heading, rows, closing);
    var extra, table := ReasonEntries(reason), Parsed(RowLines(rows));
    forall key ensures key in table <==> ComesFromRow(rows, key) {
      EntryIffRow(rows, key);
    }
    if forall key :: key in extra ==> ComesFromRow(rows, key) {
      assert extra + table == table;
    } else {
      var key :| key in extra && !ComesFromRow(rows, key);
      assert key in extra + table && key !in table;
    }
  }

  lemma OneLineParses(line: Text)
    requires OneLine(line) && line != []
    ensures Lines(line) == [line] && Parsed([line]) == Entered(map[], line)
  {
    BreakThere(line, []);
    ParsedLast([], line);
    assert [] + [line] == [line];
  }

  /** A reason of one line holds no row. */
  lemma OneLineReason(reason: Text)
    requires OneLine(reason)
    ensures ReasonEntries(reason) == map[]
  {
    OneLineParses(REASON + reason);
    assert (REASON + reason)[..2][0] != PIPE;
  }

  lemma MergedInTurn(a: map<Text, Text>, b: map<Text, Text>, c: map<Text, Text>)
    ensures (a + b) + c == a + (b + c)
  {}

  lemma LongerReason(reason: Text, extra: Row)
    requires CleanRow(extra)
    ensures ReasonEntries(reason + [LF] + Written(extra)) == ReasonEntries(reason) + Parsed([Written(extra)])
  {
    assert REASON + (reason + [LF] + Written(extra)) == REASON + reason + [LF] + Written(extra);
    ParsedAcross(REASON + reason, Written(extra));
    RowIsOneLine(extra);
    OneLineParses(Written(extra));
  }

  lemma AddedInFront(entries: map<Text, Text>, extra: Row, rows: seq<Row>)
    ensures (entries + Parsed([Written(extra)])) + Parsed(RowLines(rows)) == entries + Parsed(RowLines([extra] + rows))
  {
    ParsedAppend([Written(extra)], RowLines(rows));
    assert [Written(extra)] + RowLines(rows) == RowLines([extra] + rows);
    MergedInTurn(entries, Parsed([Written(extra)]), Parsed(RowLines(rows)));
  }

  /** The condition is real: whatever the reason and the file are otherwise, a further line that is a row is
      read as if that row had been rotated first. */
  lemma ReasonCanAddAnEntry(opening: seq<Text>, reason: Text, extra: Row, prose: seq<Text>, heading: Text,
                            rows: seq<Row>, closing: seq<Text>)
    requires GoodFile(opening, prose, heading, rows, closing) && CleanRow(extra)
    ensures Parsed(Lines(Join(FileLines(opening, reason + [LF] + Written(extra), prose, heading, rows, closing))))
         == ReasonEntries(reason) + Parsed(RowLines([extra] + rows))
  {
    var row := Written(extra);
    FileIsReasonAndRows(opening, reason + [LF] + row, prose, heading, rows, closing);
    LongerReason(reason, extra);
    AddedInFront(ReasonEntries(reason), extra, rows);
  }

  lemma ShownParsesAlike(lines: seq<Text>)
    ensures Parsed(Shown(lines)) == Parsed(lines)
  {
  }

  // ---- the last surviving row of each user ------------------------------------------------------------------------------

  /** The row's line holds no run of three dashes. */
  predicate Survives(r: Row) {
    !HasDashes(r.email) && !HasDashes(r.password)
  }

  /** Row `i` is the last row of user `id` that survives. */
  ghost predicate IsLastSurvivor(rows: seq<Row>, id: nat, i: nat) {
    && i < |rows| && rows[i].id == id && Survives(rows[i])
    && forall j :: i < j < |rows| && rows[j].id == id ==> !Survives(rows[j])
  }

  ghost predicate HasSurvivor(rows: seq<Row>, id: nat) {
    exists i :: 0 <= i < |rows| && rows[i].id == id && Survives(rows[i])
  }

  lemma DigitsAreInjective(a: nat, b: nat)
    requires Digits(a) == Digits(b)
    ensures a == b
  {
    ValueOfDigits(a);
    ValueOfDigits(b);
  }

  /** Every entry comes from a surviving row. */
  lemma {:induction false} EntriesComeFromRows(rows: seq<Row>, key: Text)
    requires forall i :: 0 <= i < |rows| ==> CleanRow(rows[i])
    ensures key in Parsed(RowLines(rows)) ==> ComesFromRow(rows, key)
  {
    if rows != [] {
      var last := |rows| - 1;
      EntriesComeFromRows(rows[..last], key);
      LastRow(rows);
      if key in Parsed(RowLines(rows[..last])) {
        var i :| 0 <= i < last && Digits(rows[..last][i].id) == key && Survives(rows[..last][i]);
        assert rows[i] == rows[..last][i];
      }
    }
  }

  lemma LastRow(rows: seq<Row>)
    requires rows != [] && CleanRow(rows[|rows| - 1])
    ensures var front, r := Parsed(RowLines(rows[..|rows| - 1])), rows[|rows| - 1];
            Parsed(RowLines(rows)) == if Survives(r) then front[Digits(r.id) := r.password] else front
  {
    var r := rows[|rows| - 1];
    assert RowLines(rows)[..|rows| - 1] == RowLines(rows[..|rows| - 1]);
    RowRoundTrip(r);
    LostIffDashes(r);
  }

  lemma {:induction false} LastSurvivorWins(rows: seq<Row>, id: nat, i: nat)
    requires forall k :: 0 <= k < |rows| ==> CleanRow(rows[k])
    requires IsLastSurvivor(rows, id, i)
    ensures Digits(id) in Parsed(RowLines(rows)) && Parsed(RowLines(rows))[Digits(id)] == rows[i].password
  {
    var last := |rows| - 1;
    LastRow(rows);
    if i < last {
      assert IsLastSurvivor(rows[..last], id, i);
      LastSurvivorWins(rows[..last], id, i);
      if Survives(rows[last]) && Digits(rows[last].id) == Digits(id) {
        DigitsAreInjective(rows[last].id, id);
      }
    }
  }

  lemma {:induction false} FindLastSurvivor(rows: seq<Row>, id: nat) returns (i: nat)
    requires HasSurvivor(rows, id)
    ensures IsLastSurvivor(rows, id, i)
  {
    var last := |rows| - 1;
    if rows[last].id == id && Survives(rows[last]) {
      i := last;
    } else {
      var k :| 0 <= k < |rows| && rows[k].id == id && Survives(rows[k]);
      assert rows[..last][k] == rows[k];
      i := FindLastSurvivor(rows[..last], id);
    }
  }

  lemma EntryIffSurvivor(rows: seq<Row>, id: nat)
    requires forall i :: 0 <= i < |rows| ==> CleanRow(rows[i])
    ensures Digits(id) in Parsed(RowLines(rows)) <==> HasSurvivor(rows, id)
  {
    EntriesComeFromRows(rows, Digits(id));
    if Digits(id) in Parsed(RowLines(rows)) {
      var i :| 0 <= i < |rows| && Digits(rows[i].id) == Digits(id) && Survives(rows[i]);
      DigitsAreInjective(rows[i].id, id);
    }
    if HasSurvivor(rows, id) {
      var i := FindLastSurvivor(rows, id);
      LastSurvivorWins(rows, id, i);
    }
  }

  /** The entry comes from a surviving row. */
  ghost predicate ComesFromRow(rows: seq<Row>, key: Text) {
    exists i :: 0 <= i < |rows| && Digits(rows[i].id) == key && Survives(rows[i])
  }

  lemma EntryIffRow(rows: seq<Row>, key: Text)
    requires forall i :: 0 <= i < |rows| ==> CleanRow(rows[i])
    ensures key in Parsed(RowLines(rows)) <==> ComesFromRow(rows, key)
  {
    EntriesComeFromRows(rows, key);
    if ComesFromRow(rows, key) {
      var i :| 0 <= i < |rows| && Digits(rows[i].id) == key && Survives(rows[i]);
      EntryIffSurvivor(rows, rows[i].id);
    }
  }

  /** What parsing the written file yields, for every reason: an entry for exactly the users with a surviving row
      and those of whom the reason holds a row; the last surviving row gives the password, and where there is none
      the reason does. */
  lemma TableRoundTrip(opening: seq<Text>, reason: Text, prose: seq<Text>, heading: Text, rows: seq<Row>, closing: seq<Text>)
    requires GoodFile(opening, prose, heading, rows, closing)
    ensures var parsed := Parsed(Lines(Join(FileLines(opening, reason, prose, heading, rows, closing))));
            && (forall key :: key in parsed <==> ComesFromRow(rows, key) || key in ReasonEntries(reason))
            && (forall id: nat, i: nat :: IsLastSurvivor(rows, id, i) ==>
                  Digits(id) in parsed && parsed[Digits(id)] == rows[i].password)
            && (forall key :: key in parsed && !ComesFromRow(rows, key) ==> parsed[key] == ReasonEntries(reason)[key])
  {
    FileIsReasonAndRows(opening, reason, prose, heading, rows, closing);
    forall key ensures key in Parsed(RowLines(rows)) <==> ComesFromRow(rows, key) {
      EntryIffRow(rows, key);
    }
    forall id: nat, i: nat | IsLastSurvivor(rows, id, i)
      ensures Digits(id) in Parsed(RowLines(rows)) && Parsed(RowLines(rows))[Digits(id)] == rows[i].password
    {
      LastSurvivorWins(rows, id, i);
    }
  }
}
