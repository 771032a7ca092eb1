/** The credential table: written as text, read back line by line. */
module Credentials {
  import opened Options
  import opened Text

  const SPACE := 32
  const DASH := 45
  const TICK := 96
  const PIPE := 124
  const LF := 10
  const CR := 13

  /** `| ` opens a row; `| user id` is the heading. */
  const ROW_START: Text := [PIPE, SPACE]
  const HEADING_START: Text := [PIPE, SPACE, 117, 115, 101, 114, SPACE, 105, 100]
  const RULE: Text := [PIPE, DASH, DASH, DASH, PIPE, DASH, DASH, DASH, PIPE, DASH, DASH, DASH, PIPE]
  const REASON: Text := [82, 101, 97, 115, 111, 110, 58, SPACE]

  datatype Row = Row(id: nat, email: Text, password: Text)

  // ---- lines --------------------------------------------------------------------------------------------------

  /** The characters at which text is split into lines. */
  predicate IsBreak(c: nat) {
    10 <= c <= 13 || 28 <= c <= 30 || c == 0x85 || c == 0x2028 || c == 0x2029
  }

  predicate OneLine(s: Text) {
    forall i :: 0 <= i < |s| ==> !IsBreak(s[i])
  }

  function BreakAt(s: Text): (k: nat)
    ensures k <= |s| && OneLine(s[..k]) && (k < |s| ==> IsBreak(s[k]))
  {
    if s == [] || IsBreak(s[0]) then 0
    else
      var k := BreakAt(s[1..]);
      assert s[..1 + k] == [s[0]] + s[1..][..k];
      1 + k
  }

  /** The lines of a text; a carriage return and line feed together are one break, and a final break opens
      no further line. */
  function Lines(s: Text): seq<Text>
    decreases |s|
  {
    if s == [] then []
    else
      var k := BreakAt(s);
      if k == |s| then [s]
      else if s[k] == CR && k + 1 < |s| && s[k + 1] == LF then [s[..k]] + Lines(s[k + 2..])
      else [s[..k]] + Lines(s[k + 1..])
  }

  function Join(lines: seq<Text>): Text {
    if lines == [] then []
    else if |lines| == 1 then lines[0]
    else lines[0] + [LF] + Join(lines[1..])
  }

  // ---- one row ---------------------------------------------------------------------------------------------------

  function Written(r: Row): Text {
    ROW_START + Digits(r.id) + [SPACE, PIPE, SPACE] + r.email + [SPACE, PIPE, SPACE, TICK] + r.password + [TICK, SPACE, PIPE]
  }

  predicate HasDashes(s: Text) {
    exists i :: 0 <= i < |s| - 2 && s[i] == DASH && s[i + 1] == DASH && s[i + 2] == DASH
  }

  predicate IsSpace(c: nat) {
    || c == SPACE || 9 <= c <= 13 || 28 <= c <= 31 || c == 0x85 || c == 0xA0 || c == 0x1680
    || 0x2000 <= c <= 0x200A || c == 0x2028 || c == 0x2029 || c == 0x202F || c == 0x205F || c == 0x3000
  }

  /** Without the leading and trailing elements that satisfy `drop`. */
  function StripLeft(s: Text, drop: nat -> bool): Text {
    if s == [] || !drop(s[0]) then s else StripLeft(s[1..], drop)
  }

  function StripRight(s: Text, drop: nat -> bool): Text {
    if s == [] || !drop(s[|s| - 1]) then s else StripRight(s[..|s| - 1], drop)
  }

  function Strip(s: Text, drop: nat -> bool): Text {
    StripRight(StripLeft(s, drop), drop)
  }

  function PipeAt(s: Text): (k: nat)
    ensures k <= |s| && (k < |s| ==> s[k] == PIPE) && forall i :: 0 <= i < k ==> s[i] != PIPE
  {
    if s == [] || s[0] == PIPE then 0 else 1 + PipeAt(s[1..])
  }

  /** The cells between pipes. */
  function Split(s: Text): (parts: seq<Text>)
    ensures parts != []
    decreases |s|
  {
    var k := PipeAt(s);
    if k == |s| then [s] else [s[..k]] + Split(s[k + 1..])
  }

  predicate Spaces(c: nat) {
    IsSpace(c)
  }

  predicate Pipes(c: nat) {
    c == PIPE
  }

  predicate Ticks(c: nat) {
    c == TICK
  }

  /** The user id and password of a row line; other lines hold none. */
  function ParseLine(line: Text): Option<(Text, Text)> {
    if !StartsWith(line, ROW_START) || StartsWith(line, HEADING_START) || HasDashes(line) then None
    else
      var parts := Split(Strip(line, Pipes));
      if |parts| < 3 then None
      else
        var id := Strip(parts[0], Spaces);
        if id == [] || !AllDigits(id) then None
        else Some((id, Strip(Strip(parts[2], Spaces), Ticks)))
  }

  /** The table read so far; a later row for the same user replaces an earlier one. */
  function Parsed(lines: seq<Text>): map<Text, Text> {
    if lines == [] then map[]
    else
      var front := Parsed(lines[..|lines| - 1]);
      match ParseLine(lines[|lines| - 1])
      case None => front
      case Some(entry) => front[entry.0 := entry.1]
  }

  method ParseCredentialFile(text: Text) returns (out: map<Text, Text>)
    ensures out == Parsed(Lines(text))
  {
    var lines := Lines(text);
    out := map[];
    for i := 0 to |lines|
      invariant out == Parsed(lines[..i])
    {
      assert lines[..i + 1][..i] == lines[..i];
      var entry := ParseLine(lines[i]);
      if entry.None? {
        continue;
      }
      out := out[entry.value.0 := entry.value.1];
    }
    assert lines[..|lines|] == lines;
  }

  // ---- the written file ------------------------------------------------------------------------------------------------

  function RowLines(rows: seq<Row>): (lines: seq<Text>)
    ensures |lines| == |rows| && forall i :: 0 <= i < |rows| ==> lines[i] == Written(rows[i])
  {
    seq(|rows|, i requires 0 <= i < |rows| => Written(rows[i]))
  }

  /** The lines of the file: prose, the reason, more prose, the table, closing prose. */
  function FileLines(opening: seq<Text>, reason: Text, prose: seq<Text>, heading: Text, rows: seq<Row>, closing: seq<Text>): seq<Text> {
    opening + [REASON + reason] + prose + [heading, RULE] + RowLines(rows) + closing
  }

  /** The fixed lines hold no row and no line break; the heading begins as headings do. */
  predicate IsProse(line: Text) {
    OneLine(line) && !StartsWith(line, ROW_START)
  }

  predicate IsHeading(line: Text) {
    OneLine(line) && StartsWith(line, HEADING_START)
  }

  // ---- reading a written row -----------------------------------------------------------------------------------------------

  /** What may not occur in a cell: the marks the parser strips or splits at. */
  ghost predicate CleanCell(s: Text) {
    forall i :: 0 <= i < |s| ==> s[i] != PIPE && s[i] != TICK && !IsBreak(s[i])
  }

  ghost predicate CleanRow(r: Row) {
    CleanCell(r.email) && CleanCell(r.password)
  }

  lemma {:induction false} StripLeftStops(s: Text, keep: Text, drop: nat -> bool)
    requires forall i :: 0 <= i < |s| ==> drop(s[i])
    requires keep != [] ==> !drop(keep[0])
    ensures StripLeft(s + keep, drop) == keep
  {
    if s == [] {
      assert s + keep == keep;
    } else {
      StripLeftStops(s[1..], keep, drop);
      assert (s + keep)[1..] == s[1..] + keep;
    }
  }

  lemma {:induction false} StripRightStops(keep: Text, s: Text, drop: nat -> bool)
    requires forall i :: 0 <= i < |s| ==> drop(s[i])
    requires keep != [] ==> !drop(keep[|keep| - 1])
    ensures StripRight(keep + s, drop) == keep
  {
    if s == [] {
      assert keep + s == keep;
    } else {
      var last := |s| - 1;
      StripRightStops(keep, s[..last], drop);
      assert (keep + s)[..|keep| + last] == keep + s[..last];
    }
  }

  /** Stripping takes off exactly the padding around a core that neither begins nor ends with padding. */
  lemma StripCore(left: Text, core: Text, right: Text, drop: nat -> bool)
    requires forall i :: 0 <= i < |left| ==> drop(left[i])
    requires forall i :: 0 <= i < |right| ==> drop(right[i])
    requires core != [] && !drop(core[0]) && !drop(core[|core| - 1])
    ensures Strip(left + core + right, drop) == core
  {
    assert left + core + right == left + (core + right);
    StripLeftStops(left, core + right, drop);
    StripRightStops(core, right, drop);
  }

  lemma NoPipeIn(s: Text, rest: Text)
    requires forall i :: 0 <= i < |s| ==> s[i] != PIPE
    ensures Split(s + [PIPE] + rest) == [s] + Split(rest)
    ensures Split(s) == [s]
  {
    var whole := s + [PIPE] + rest;
    assert whole[|s|] == PIPE && forall i :: 0 <= i < |s| ==> whole[i] == s[i];
    assert PipeAt(whole) == |s|;
    assert whole[..|s|] == s && whole[|s| + 1..] == rest;
  }

  lemma SplitThree(a: Text, b: Text, c: Text)
    requires forall i :: 0 <= i < |a| ==> a[i] != PIPE
    requires forall i :: 0 <= i < |b| ==> b[i] != PIPE
    requires forall i :: 0 <= i < |c| ==> c[i] != PIPE
    ensures Split(a + [PIPE] + b + [PIPE] + c) == [a, b, c]
  {
    Regroup(a, [PIPE], b, [PIPE], c);
    NoPipeIn(a, b + [PIPE] + c);
    NoPipeIn(b, c);
    NoPipeIn(c, []);
    assert [a] + ([b] + [c]) == [a, b, c];
  }

  lemma Regroup(a: Text, b: Text, c: Text, d: Text, e: Text)
    ensures a + b + c + d + e == a + b + (c + d + e)
  {
  }

  function IdCell(id: nat): Text {
    [SPACE] + Digits(id) + [SPACE]
  }

  function PlainCell(s: Text): Text {
    [SPACE] + s + [SPACE]
  }

  function TickedCell(s: Text): Text {
    [SPACE] + ([TICK] + s + [TICK]) + [SPACE]
  }

  lemma RowCells(r: Row)
    ensures Written(r) == [PIPE] + (IdCell(r.id) + [PIPE] + PlainCell(r.email) + [PIPE] + TickedCell(r.password)) + [PIPE]
  {
  }

  lemma RowSplits(r: Row)
    requires CleanRow(r)
    ensures Split(Strip(Written(r), Pipes)) == [IdCell(r.id), PlainCell(r.email), TickedCell(r.password)]
  {
    var core := IdCell(r.id) + [PIPE] + PlainCell(r.email) + [PIPE] + TickedCell(r.password);
    RowCells(r);
    assert core[0] == SPACE && core[|core| - 1] == SPACE;
    StripCore([PIPE], core, [PIPE], Pipes);
    SplitThree(IdCell(r.id), PlainCell(r.email), TickedCell(r.password));
  }

  lemma IdCellStrips(id: nat)
    ensures Strip(IdCell(id), Spaces) == Digits(id)
  {
    StripCore([SPACE], Digits(id), [SPACE], Spaces);
  }

  lemma TickedCellStrips(s: Text)
    requires CleanCell(s)
    ensures Strip(Strip(TickedCell(s), Spaces), Ticks) == s
  {
    StripCore([SPACE], [TICK] + s + [TICK], [SPACE], Spaces);
    if s == [] {
      assert [TICK] + s + [TICK] == [TICK, TICK] + [];
      StripLeftStops([TICK, TICK], [], Ticks);
    } else {
      StripCore([TICK], s, [TICK], Ticks);
    }
  }

  lemma RowIsARow(r: Row)
    ensures StartsWith(Written(r), ROW_START) && !StartsWith(Written(r), HEADING_START)
  {
    var s := Written(r);
    assert s[..2] == ROW_START;
    assert s[2] == Digits(r.id)[0];
    if |HEADING_START| <= |s| {
      assert s[..|HEADING_START|][2] == s[2] && HEADING_START[2] == 117;
    }
  }

  /** A written row is read back exactly, unless its line contains three dashes. */
  lemma RowRoundTrip(r: Row)
    requires CleanRow(r)
    ensures ParseLine(Written(r)) == if HasDashes(Written(r)) then None else Some((Digits(r.id), r.password))
  {
    RowIsARow(r);
    RowSplits(r);
    IdCellStrips(r.id);
    TickedCellStrips(r.password);
  }

  /** A break in a run of dashes. */
  lemma DashesApart(a: Text, c: nat, b: Text)
    requires c != DASH
    ensures HasDashes(a + [c] + b) <==> HasDashes(a) || HasDashes(b)
  {
    var s := a + [c] + b;
    if HasDashes(s) {
      var i :| 0 <= i < |s| - 2 && s[i] == DASH && s[i + 1] == DASH && s[i + 2] == DASH;
      if i + 2 < |a| {
        assert a[i] == DASH && a[i + 1] == DASH && a[i + 2] == DASH;
      } else {
        var j := i - |a| - 1;
        assert s[|a|] == c;
        assert b[j] == DASH && b[j + 1] == DASH && b[j + 2] == DASH;
      }
    }
    if HasDashes(a) {
      var i :| 0 <= i < |a| - 2 && a[i] == DASH && a[i + 1] == DASH && a[i + 2] == DASH;
      assert s[i] == DASH && s[i + 1] == DASH && s[i + 2] == DASH;
    }
    if HasDashes(b) {
      var j :| 0 <= j < |b| - 2 && b[j] == DASH && b[j + 1] == DASH && b[j + 2] == DASH;
      var i := j + |a| + 1;
      assert s[i] == DASH && s[i + 1] == DASH && s[i + 2] == DASH;
    }
  }

  /** The row is lost exactly when its email or its password contains three dashes in a row. */
  lemma LostIffDashes(r: Row)
    ensures HasDashes(Written(r)) <==> HasDashes(r.email) || HasDashes(r.password)
  {
    var d := Digits(r.id);
    var head := ROW_START + d + [SPACE, PIPE];
    var tail := [SPACE, PIPE];
    assert !HasDashes(head) by {
      assert forall i :: 0 <= i < |head| ==> head[i] != DASH;
    }
    assert !HasDashes([SPACE, PIPE, SPACE]) && !HasDashes(tail);
    DashesApart(r.password, TICK, tail);
    DashesApart([SPACE, PIPE, SPACE], TICK, r.password + [TICK] + tail);
    var rest := [SPACE, PIPE, SPACE] + [TICK] + (r.password + [TICK] + tail);
    assert rest == [SPACE] + ([PIPE, SPACE] + [TICK] + (r.password + [TICK] + tail));
    DashesApart(r.email, SPACE, [PIPE, SPACE] + [TICK] + (r.password + [TICK] + tail));
    DashesApart([PIPE, SPACE], TICK, r.password + [TICK] + tail);
    assert !HasDashes([PIPE, SPACE]);
    var after := r.email + [SPACE] + ([PIPE, SPACE] + [TICK] + (r.password + [TICK] + tail));
    DashesApart(head, SPACE, after);
    assert Written(r) == head + [SPACE] + after;
  }
}
