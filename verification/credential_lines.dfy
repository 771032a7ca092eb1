/** Which lines of any file are rows of the table, and what they are read as, character by character. */
module CredentialLines {
  import opened Options
  import opened Text
  import opened Credentials

  // ---- lines ------------------------------------------------------------------------------------------------------

  /** The line feed and its kin. */
  predicate Ends(c: nat) {
    10 <= c <= 13 || 28 <= c <= 30 || c == 133 || c == 8232 || c == 8233
  }

  ghost predicate Unbroken(line: Text) {
    forall i :: 0 <= i < |line| ==> !Ends(line[i])
  }

  lemma FirstBreak(line: Text, after: Text)
    requires Unbroken(line) && after != [] && Ends(after[0])
    ensures BreakAt(line + after) == |line|
  {
    var s := line + after;
    assert s[|line|] == after[0] && forall i :: 0 <= i < |line| ==> s[i] == line[i];
  }

  /** A text without such characters is one line. */
  lemma LineAlone(line: Text)
    requires Unbroken(line)
    ensures Lines(line) == if line == [] then [] else [line]
  {
    assert BreakAt(line) == |line|;
  }

  /** Each of them ends a line, the carriage return alone unless a line feed follows. */
  lemma LineEnds(line: Text, mark: nat, rest: Text)
    requires Unbroken(line) && Ends(mark) && (mark == 13 && rest != [] ==> rest[0] != 10)
    ensures Lines(line + ([mark] + rest)) == [line] + Lines(rest)
  {
    var s := line + ([mark] + rest);
    FirstBreak(line, [mark] + rest);
    assert s[..|line|] == line && s[|line| + 1..] == rest && s[|line|] == mark;
    assert rest != [] ==> s[|line| + 1] == rest[0];
  }

  /** Together they end one line. */
  lemma LineEndsTogether(line: Text, rest: Text)
    requires Unbroken(line)
    ensures Lines(line + ([13, 10] + rest)) == [line] + Lines(rest)
  {
    var s := line + ([13, 10] + rest);
    FirstBreak(line, [13, 10] + rest);
    assert s[..|line|] == line && s[|line| + 2..] == rest && s[|line|] == 13 && s[|line| + 1] == 10;
  }

  // ---- cells ------------------------------------------------------------------------------------------------------

  predicate Blank(c: nat) {
    || c == 32 || 9 <= c <= 13 || 28 <= c <= 31 || c == 133 || c == 160 || c == 5760
    || 8192 <= c <= 8202 || c == 8232 || c == 8233 || c == 8239 || c == 8287 || c == 12288
  }

  predicate Bar(c: nat) {
    c == 124
  }

  predicate Tick(c: nat) {
    c == 96
  }

  ghost predicate All(s: Text, mark: nat -> bool) {
    forall i :: 0 <= i < |s| ==> mark(s[i])
  }

  ghost predicate NoneOf(s: Text, mark: nat -> bool) {
    forall i :: 0 <= i < |s| ==> !mark(s[i])
  }

  /** `core` is `s` without the marks at its ends. */
  ghost predicate Trims(s: Text, mark: nat -> bool, core: Text) {
    && (core != [] ==> !mark(core[0]) && !mark(core[|core| - 1]))
    && exists left, right :: All(left, mark) && All(right, mark) && s == left + core + right
  }

  lemma StripTrims(s: Text, mark: nat -> bool, drop: nat -> bool, core: Text)
    requires Trims(s, mark, core) && forall c :: mark(c) <==> drop(c)
    ensures Strip(s, drop) == core
  {
    var left, right :| All(left, mark) && All(right, mark) && s == left + core + right;
    if core == [] {
      assert s == (left + right) + [];
      StripLeftStops(left + right, [], drop);
    } else {
      StripCore(left, core, right, drop);
    }
  }

  /** The cells with a bar between neighbours. */
  function Barred(cells: seq<Text>): Text
    requires cells != []
  {
    if |cells| == 1 then cells[0] else cells[0] + [124] + Barred(cells[1..])
  }

  lemma {:induction false} SplitBarred(cells: seq<Text>)
    requires cells != [] && forall i :: 0 <= i < |cells| ==> NoneOf(cells[i], Bar)
    ensures Split(Barred(cells)) == cells
    decreases |cells|
  {
    if |cells| == 1 {
      NoPipeIn(cells[0], []);
    } else {
      NoPipeIn(cells[0], Barred(cells[1..]));
      SplitBarred(cells[1..]);
    }
  }

  // ---- rows ---------------------------------------------------------------------------------------------------------

  predicate Begins(s: Text, start: Text) {
    |start| <= |s| && s[..|start|] == start
  }

  ghost predicate ThreeDashes(s: Text) {
    exists i :: 0 <= i < |s| - 2 && s[i] == 45 && s[i + 1] == 45 && s[i + 2] == 45
  }

  /** A bar and a space in front, not the heading "| user id", and no three dashes. */
  ghost predicate LooksLikeARow(line: Text) {
    Begins(line, [124, 32]) && !Begins(line, [124, 32, 117, 115, 101, 114, 32, 105, 100]) && !ThreeDashes(line)
  }

  ghost predicate Decimal(s: Text) {
    s != [] && forall i :: 0 <= i < |s| ==> 48 <= s[i] <= 57
  }

  /** The cells of a line, between the bars at its ends. */
  ghost predicate HasCells(line: Text, cells: seq<Text>) {
    && cells != [] && (forall i :: 0 <= i < |cells| ==> NoneOf(cells[i], Bar))
    && (|cells| > 1 ==> cells[0] != [] && cells[|cells| - 1] != [])
    && exists left, right :: All(left, Bar) && All(right, Bar) && line == left + Barred(cells) + right
  }

  lemma {:induction false} BarredEnds(cells: seq<Text>)
    requires cells != [] && (forall i :: 0 <= i < |cells| ==> NoneOf(cells[i], Bar))
    requires |cells| > 1 ==> cells[|cells| - 1] != []
    ensures Barred(cells) != [] && (|cells| > 1 ==> cells[0] != []) ==> Barred(cells)[0] != 124
    ensures Barred(cells) != [] ==> Barred(cells)[|Barred(cells)| - 1] != 124
    ensures |cells| > 1 ==> Barred(cells) != []
    decreases |cells|
  {
    if |cells| > 1 {
      BarredEnds(cells[1..]);
      assert Barred(cells[1..]) != [];
    }
  }

  lemma CellsOfLine(line: Text, cells: seq<Text>)
    requires HasCells(line, cells)
    ensures Split(Strip(line, Pipes)) == cells
  {
    BarredEnds(cells);
    SplitBarred(cells);
    assert Trims(line, Bar, Barred(cells));
    StripTrims(line, Bar, Pipes, Barred(cells));
  }

  /** A line that looks like a row and has three cells or more, the first of them a number in decimal digits, is read
      as that number and the third cell without its blanks and then its ticks; every other line holds nothing. */
  lemma LineIsRead(line: Text, cells: seq<Text>, id: Text, cell: Text, password: Text)
    requires HasCells(line, cells)
    requires |cells| >= 3 ==> Trims(cells[0], Blank, id) && Trims(cells[2], Blank, cell) && Trims(cell, Tick, password)
    ensures ParseLine(line)
         == if LooksLikeARow(line) && |cells| >= 3 && Decimal(id) then Some((id, password)) else None
  {
    CellsOfLine(line, cells);
    if |cells| >= 3 {
      StripTrims(cells[0], Blank, Spaces, id);
      StripTrims(cells[2], Blank, Spaces, cell);
      StripTrims(cell, Tick, Ticks, password);
      assert id != [] ==> (AllDigits(id) <==> Decimal(id));
    }
    assert ROW_START == [124, 32] && HEADING_START == [124, 32, 117, 115, 101, 114, 32, 105, 100];
    assert HasDashes(line) <==> ThreeDashes(line);
  }
}
